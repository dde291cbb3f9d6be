/** Aggregation in two phases: partial rows of the shards, folded into the answer of one table. */
module TwoPhase {
  import opened Prelude
  import opened Seqs
  import opened Sorting
  import opened Rows
  import opened AggregatePlan
  import opened Aggregate
  import opened Grouping
  import opened AggregateOperator
  import opened AggregateResult

  /** The query that the shards get for a select list. */
  function Pushed(items: seq<Item>, cols: seq<nat>, idx: seq<nat>): Query {
    Query(Expand(items), cols, idx)
  }

  /** The value of an aggregate folded from its own column. */
  lemma FoldedItem(items: seq<Item>, cols: seq<nat>, idx: seq<nat>, run: seq<Row>, group: seq<Row>, c: nat,
                   fn: AggrType, arg: Option<nat>)
    requires Combined(run, Pushed(items, cols, idx), group) && run != []
    requires c < |Expand(items)| && Expand(items)[c] == Aggr(fn, arg)
    ensures NumOf(FoldCol(fn, run, c)) == SqlAgg(fn, Args(group, arg))
  {
    assert Folds(run, Expand(items)[c], c, group);
    FoldIsNum(fn, run, c);
  }

  lemma PlainHolds(items: seq<Item>, cols: seq<nat>, idx: seq<nat>, row: Row, group: seq<Row>, t: nat)
    requires PlainsHold(row, Pushed(items, cols, idx), group) && t < |items| && items[t].Plain?
    ensures ItemHolds(At(row, Pos(items, t)), items[t], cols, group)
  {
    OwnColumns(items, t);
  }

  lemma FinalHolds(items: seq<Item>, cols: seq<nat>, idx: seq<nat>, run: seq<Row>, group: seq<Row>, ctxs: seq<Value>,
                   t: nat)
    requires Combined(run, Pushed(items, cols, idx), group) && Evaluated(Aggregators(items), ctxs, run) && t < |items|
    ensures ItemHolds(Final(items, run[0], ctxs, t), items[t], cols, group)
  {
    if items[t].Plain? {
      assert run[0] in run;
      PlainHolds(items, cols, idx, run[0], group, t);
    } else {
      AggregateHolds(items, cols, idx, run, group, ctxs, t);
    }
  }

  /** The running value of an aggregator stands for the aggregate that its column holds. */
  lemma CtxHolds(items: seq<Item>, cols: seq<nat>, idx: seq<nat>, run: seq<Row>, group: seq<Row>, ctxs: seq<Value>,
                 i: nat, fn: AggrType, arg: Option<nat>)
    requires Combined(run, Pushed(items, cols, idx), group) && Evaluated(Aggregators(items), ctxs, run)
    requires i < |Aggregators(items)| && Aggregators(items)[i].typ == fn != Avg
    requires Aggregators(items)[i].index < |Expand(items)|
    requires Expand(items)[Aggregators(items)[i].index] == Aggr(fn, arg)
    ensures NumOf(ctxs[i]) == SqlAgg(fn, Args(group, arg))
  {
    FoldedItem(items, cols, idx, run, group, Aggregators(items)[i].index, fn, arg);
  }

  lemma AggregateHolds(items: seq<Item>, cols: seq<nat>, idx: seq<nat>, run: seq<Row>, group: seq<Row>,
                       ctxs: seq<Value>, t: nat)
    requires Combined(run, Pushed(items, cols, idx), group) && Evaluated(Aggregators(items), ctxs, run)
    requires t < |items| && items[t].Aggr?
    ensures NumOf(Final(items, run[0], ctxs, t)) == SqlAgg(items[t].fn, Args(group, items[t].arg))
  {
    var i := Off(items, t);
    var arg := items[t].arg;
    OwnColumns(items, t);
    if items[t].fn == Avg {
      CtxHolds(items, cols, idx, run, group, ctxs, i + 1, Sum, arg);
      CtxHolds(items, cols, idx, run, group, ctxs, i + 2, Count, arg);
      AvgOfSumAndCount(Args(group, arg), ctxs[i + 1], ctxs[i + 2]);
    } else {
      CtxHolds(items, cols, idx, run, group, ctxs, i, items[t].fn, arg);
    }
  }

  // ----- The groups of the table -----------------------------------------------------------------

  function FirstKeys(runs: seq<seq<Row>>, idx: seq<nat>): (keys: seq<Key>)
    requires forall g | 0 <= g < |runs| :: runs[g] != []
    ensures |keys| == |runs| && forall g | 0 <= g < |runs| :: keys[g] == KeyNums(runs[g][0], idx)
  {
    seq(|runs|, g requires 0 <= g < |runs| => KeyNums(runs[g][0], idx))
  }

  /** Partial rows of the shards of a table, and the same rows sorted. */
  ghost predicate Collected(items: seq<Item>, cols: seq<nat>, idx: seq<nat>,
                            answers: seq<seq<Row>>, shards: seq<seq<Row>>, rows: seq<Row>) {
    && Pushed(items, cols, idx).Valid() && |answers| == |shards|
    && (forall i | 0 <= i < |shards| :: Answers(answers[i], Pushed(items, cols, idx), shards[i]))
    && multiset(rows) == multiset(Flatten(answers))
  }

  lemma CollectedCombines(items: seq<Item>, cols: seq<nat>, idx: seq<nat>,
                          answers: seq<seq<Row>>, shards: seq<seq<Row>>, rows: seq<Row>, key: Key)
    requires Collected(items, cols, idx, answers, shards, rows) && |key| == |cols|
    ensures Combined(WithKey(rows, idx, key), Pushed(items, cols, idx), WithKey(Flatten(shards), cols, key))
  {
    var q := Pushed(items, cols, idx);
    ShardsCombine(answers, q, shards, key);
    var f := (row: Row) => IfKey(row, idx, key);
    FlatMapPermutes(f, f, Flatten(answers), rows);
    CombinedPermutes(WithKey(Flatten(answers), idx, key), WithKey(rows, idx, key), q,
      WithKey(Flatten(shards), cols, key));
  }

  lemma KeyHasRun(items: seq<Item>, cols: seq<nat>, idx: seq<nat>, answers: seq<seq<Row>>, shards: seq<seq<Row>>,
                  runs: seq<seq<Row>>, row: Row)
    requires Runs(runs, idx) && Collected(items, cols, idx, answers, shards, Flatten(runs)) && row in Flatten(shards)
    ensures exists g :: 0 <= g < |runs| && KeyNums(runs[g][0], idx) == KeyNums(row, cols)
  {
    var key := KeyNums(row, cols);
    CollectedCombines(items, cols, idx, answers, shards, Flatten(runs), key);
    FlatMapMember((x: Row) => IfKey(x, cols, key), Flatten(shards), row);
    assert row in IfKey(row, cols, key);
    if forall g | 0 <= g < |runs| :: KeyNums(runs[g][0], idx) != key {
      NoRun(runs, idx, key);
    }
  }

  lemma RunCombines(items: seq<Item>, cols: seq<nat>, idx: seq<nat>, answers: seq<seq<Row>>, shards: seq<seq<Row>>,
                    runs: seq<seq<Row>>, g: nat)
    requires Runs(runs, idx) && Collected(items, cols, idx, answers, shards, Flatten(runs)) && g < |runs|
    ensures Combined(runs[g], Pushed(items, cols, idx), WithKey(Flatten(shards), cols, KeyNums(runs[g][0], idx)))
  {
    RunIsGroup(runs, idx, g);
    CollectedCombines(items, cols, idx, answers, shards, Flatten(runs), KeyNums(runs[g][0], idx));
  }

  /** With GROUP BY, a run has rows of the table behind it. */
  lemma RunHasRows(items: seq<Item>, cols: seq<nat>, idx: seq<nat>, answers: seq<seq<Row>>, shards: seq<seq<Row>>,
                   runs: seq<seq<Row>>, g: nat)
    requires Runs(runs, idx) && Collected(items, cols, idx, answers, shards, Flatten(runs)) && g < |runs| && cols != []
    ensures exists row :: row in Flatten(shards) && KeyNums(row, cols) == KeyNums(runs[g][0], idx)
  {
    var q, key := Pushed(items, cols, idx), KeyNums(runs[g][0], idx);
    RunCombines(items, cols, idx, answers, shards, runs, g);
    var group := WithKey(Flatten(shards), cols, key);
    assert PlainsHold(runs[g][0], q, group);
    assert ItemHolds(runs[g][0][idx[0]], q.items[idx[0]], cols, group);
    assert Occurs(runs[g][0][idx[0]], cols[0], group);
    var row :| row in group && NumOf(runs[g][0][idx[0]]) == NumOf(At(row, cols[0]));
    FlatMapMember((x: Row) => IfKey(x, cols, key), Flatten(shards), row);
  }

  lemma OneEmptyKey(keys: seq<Key>)
    requires keys != [] && Distinct(keys) && forall g | 0 <= g < |keys| :: |keys[g]| == 0
    ensures keys == [[]]
  {
    if |keys| > 1 {
      NoColumnsOneKey(keys[0], keys[1]);
    }
  }

  lemma NoColumnsOneKey(a: Key, b: Key)
    requires |a| == |b| == 0
    ensures a == b
  {
  }

  lemma RunKeys(items: seq<Item>, cols: seq<nat>, idx: seq<nat>, answers: seq<seq<Row>>, shards: seq<seq<Row>>,
                runs: seq<seq<Row>>)
    requires Runs(runs, idx) && Collected(items, cols, idx, answers, shards, Flatten(runs)) &&
      (cols == [] ==> runs != [])
    ensures KeysOf(FirstKeys(runs, idx), cols, Flatten(shards))
  {
    var keys := FirstKeys(runs, idx);
    forall row | row in Flatten(shards) ensures KeyNums(row, cols) in keys {
      KeyHasRun(items, cols, idx, answers, shards, runs, row);
      var g :| 0 <= g < |runs| && KeyNums(runs[g][0], idx) == KeyNums(row, cols);
      assert keys[g] in keys;
    }
    forall g, h | 0 <= g < h < |keys| ensures keys[g] != keys[h] {
      assert Rises(runs[g], runs[h], idx);
    }
    if cols == [] {
      OneEmptyKey(keys);
    } else {
      forall key | key in keys ensures exists row :: row in Flatten(shards) && KeyNums(row, cols) == key {
        var g :| 0 <= g < |keys| && keys[g] == key;
        RunHasRows(items, cols, idx, answers, shards, runs, g);
      }
    }
  }

  /** The finished groups are the answer of the query on the whole table. */
  lemma GroupsAnswer(items: seq<Item>, cols: seq<nat>, idx: seq<nat>, answers: seq<seq<Row>>, shards: seq<seq<Row>>,
                     runs: seq<seq<Row>>, groups: seq<Group>, result: seq<Row>)
    requires Runs(runs, idx) && Collected(items, cols, idx, answers, shards, Flatten(runs)) &&
      (cols == [] ==> runs != [])
    requires |groups| == |result| && GroupsOk(Aggregators(items), groups, runs)
    requires forall g | 0 <= g < |runs| :: Finished(items, groups[g], result[g])
    ensures Grouped(result, FirstKeys(runs, idx), items, cols, Flatten(shards))
  {
    RunKeys(items, cols, idx, answers, shards, runs);
    var keys := FirstKeys(runs, idx);
    forall g | 0 <= g < |runs| ensures RowFor(result[g], items, cols, WithKey(Flatten(shards), cols, keys[g])) {
      RunCombines(items, cols, idx, answers, shards, runs, g);
      assert Finished(items, groups[g], result[g]) && GroupOk(Aggregators(items), groups[g], runs[g]);
      forall t | 0 <= t < |items| ensures ItemHolds(result[g][t], items[t], cols,
        WithKey(Flatten(shards), cols, keys[g])) {
        FinalHolds(items, cols, idx, runs[g], WithKey(Flatten(shards), cols, keys[g]), groups[g].ctxs, t);
      }
    }
  }

  ghost predicate Finished(items: seq<Item>, group: Group, r: Row) {
    |group.ctxs| == |Aggregators(items)| && |r| == |items| &&
    forall t | 0 <= t < |items| :: r[t] == Final(items, group.row, group.ctxs, t)
  }

  // ----- The operator ---------------------------------------------------------------------------------

  method SortByKeys(rows: seq<Row>, idx: seq<nat>) returns (sorted: seq<Row>)
    ensures SortOf(sorted, rows, KeyLe(idx))
  {
    if |idx| > 0 {
      KeyLeIsTotalPreorder(idx);
      sorted := Sort(rows, KeyLe(idx));
    } else {
      sorted := rows;
    }
  }

  method FinishGroups(aggrs: seq<Aggregator>, groups: seq<Group>, ghost items: seq<Item>) returns (result: seq<Row>)
    requires aggrs == Aggregators(items)
    requires forall g | 0 <= g < |groups| :: |groups[g].ctxs| == |aggrs| && |groups[g].row| == |Expand(items)|
    ensures |result| == |groups| && forall g | 0 <= g < |groups| :: Finished(items, groups[g], result[g])
  {
    result := [];
    for g := 0 to |groups|
      invariant |result| == g && forall h | 0 <= h < g :: Finished(items, groups[h], result[h])
    {
      var r := FinishGroup(aggrs, groups[g], items);
      result := result + [r];
    }
  }

  /** Without GROUP BY every shard answers with a row. */
  lemma SomeAnswer(q: Query, answers: seq<seq<Row>>, shards: seq<seq<Row>>)
    requires q.cols == [] && shards != [] && |answers| == |shards| && forall i | 0 <= i < |shards| ::
      Answers(answers[i], q, shards[i])
    ensures Flatten(answers) != []
  {
    var n := |shards| - 1;
    assert Answers(answers[n], q, shards[n]);
    var keys :| Grouped(answers[n], keys, q.items, q.cols, shards[n]);
    assert |answers[n]| == 1;
  }

  lemma {:induction false} RowsAreWide(q: Query, answers: seq<seq<Row>>, shards: seq<seq<Row>>)
    requires |answers| == |shards| && forall i | 0 <= i < |shards| :: Answers(answers[i], q, shards[i])
    ensures forall row | row in Flatten(answers) :: |row| == |q.items|
  {
    if shards != [] {
      var n := |shards| - 1;
      RowsAreWide(q, answers[..n], shards[..n]);
      assert Answers(answers[n], q, shards[n]);
      var keys :| Grouped(answers[n], keys, q.items, q.cols, shards[n]);
      forall row | row in answers[n] ensures |row| == |q.items| {
        var i :| 0 <= i < |answers[n]| && answers[n][i] == row;
        assert RowFor(answers[n][i], q.items, q.cols, WithKey(shards[n], q.cols, keys[i]));
      }
    }
  }

  /** The groups of the partial rows, finished. */
  method FoldRows(plan: Plan, rows: seq<Row>, ghost items: seq<Item>, ghost cols: seq<nat>,
                  ghost answers: seq<seq<Row>>, ghost shards: seq<seq<Row>>) returns (result: seq<Row>)
    requires plan.normalAggrs == Aggregators(items) && Sorted(rows, KeyLe(plan.groupIdxs))
    requires Collected(items, cols, plan.groupIdxs, answers, shards, rows) && shards != []
    ensures |result| == 0 <==> rows == []
    ensures Answers(result, Query(items, cols, plan.groupIdxs), Flatten(shards))
  {
    var groups;
    ghost var runs;
    groups, runs := BuildGroups(rows, plan.normalAggrs, plan.groupIdxs);
    ghost var q := Pushed(items, cols, plan.groupIdxs);
    RowsAreWide(q, answers, shards);
    forall g | 0 <= g < |groups| ensures |groups[g].ctxs| == |plan.normalAggrs| && |groups[g].row| == |Expand(items)| {
      assert GroupOk(plan.normalAggrs, groups[g], runs[g]);
      FirstIsInside(runs, g);
      assert groups[g].row in multiset(rows);
    }
    result := FinishGroups(plan.normalAggrs, groups, items);
    if cols == [] {
      SomeAnswer(q, answers, shards);
      assert |multiset(rows)| == |multiset(Flatten(answers))|;
    }
    GroupsAnswer(items, cols, plan.groupIdxs, answers, shards, runs, groups, result);
    NoRunsNoRows(runs);
  }

  lemma NoRunsNoRows(runs: seq<seq<Row>>)
    requires forall g | 0 <= g < |runs| :: runs[g] != []
    ensures Flatten(runs) == [] <==> runs == []
  {
  }

  /** With GROUP BY there is an answer row exactly if there is a row. */
  lemma AnswerIsEmpty(answer: seq<Row>, q: Query, rows: seq<Row>)
    requires Answers(answer, q, rows) && q.cols != []
    ensures answer == [] <==> rows == []
  {
    var keys :| Grouped(answer, keys, q.items, q.cols, rows);
    if rows != [] {
      assert rows[0] in rows && KeyNums(rows[0], q.cols) in keys;
    }
    if answer != [] {
      assert keys[0] in keys;
    }
  }

  function Nulls(n: nat): (row: Row)
    ensures |row| == n
  {
    seq(n, i => Null)
  }

  /**
    The aggregate operator. It answers as the query would on one table, except that a GROUP BY with
    aggregates over no rows at all gets a row of NULLs instead of no row.
  */
  method Execute(plan: Plan, answers: seq<seq<Row>>, ghost items: seq<Item>, ghost cols: seq<nat>,
                 ghost shards: seq<seq<Row>>)
    returns (result: seq<Row>)
    requires plan.normalAggrs == Aggregators(items) && plan.rewritten == Expand(items)
    requires Pushed(items, cols, plan.groupIdxs).Valid() && shards != [] && |answers| == |shards|
    requires forall i | 0 <= i < |shards| :: Answers(answers[i], Pushed(items, cols, plan.groupIdxs), shards[i])
    ensures plan.normalAggrs == [] && plan.groupIdxs == [] ==> result == Flatten(answers)
    ensures !(plan.normalAggrs == [] && plan.groupIdxs == []) ==>
      (Answers(result, Query(items, cols, plan.groupIdxs), Flatten(shards)) <==>
       (Flatten(shards) != [] || cols == [] || plan.normalAggrs == []))
    ensures plan.normalAggrs != [] && cols != [] && Flatten(shards) == [] ==> |result| == 1
  {
    result := Flatten(answers);
    if |plan.normalAggrs| == 0 && |plan.groupIdxs| == 0 {
      return;
    }
    var rows := SortByKeys(result, plan.groupIdxs);
    result := FoldRows(plan, rows, items, cols, answers, shards);
    ghost var q := Query(items, cols, plan.groupIdxs);
    if cols != [] {
      AnswerIsEmpty(result, q, Flatten(shards));
    } else {
      SomeAnswer(Pushed(items, cols, plan.groupIdxs), answers, shards);
      assert |multiset(rows)| == |multiset(Flatten(answers))|;
    }
    if |result| == 0 && |plan.normalAggrs| > 0 {
      var r := FinishGroup(plan.normalAggrs, Group(Nulls(|plan.rewritten|), Nulls(|plan.normalAggrs|)), items);
      result := [r];
      if Answers(result, q, Flatten(shards)) {
        AnswerIsEmpty(result, q, Flatten(shards));
      }
    }
  }

  /** On one table a GROUP BY over no rows has no answer row. */
  lemma NothingGrouped(q: Query)
    requires q.cols != []
    ensures Answers([], q, [])
  {
    var keys: seq<Key> := [];
    assert Grouped([], keys, q.items, q.cols, []);
  }

  /** SELECT a, COUNT(*) ... GROUP BY a over one empty shard: one table answers no row, the operator one. */
  method GroupsOfNothing() returns (result: seq<Row>)
    ensures |result| == 1
    ensures var q := Query([Plain("a", 0), Aggr(Count, None)], [0], [0]); Answers([], q, []) && !Answers(result, q, [])
  {
    ghost var items := [Plain("a", 0), Aggr(Count, None)];
    ghost var q := Query(items, [0], [0]);
    assert ExpandTo(items, 1) == [Plain("a", 0)] && Expand(items) == items;
    assert AggregatorsTo(items, 1) == [] && Aggregators(items) == [Aggregator(1, Count)];
    NothingGrouped(q);
    ghost var shards: seq<seq<Row>> := [[]];
    assert shards[..0] == [] && Flatten(shards) == [];
    assert Answers([], Pushed(items, [0], [0]), shards[0]);
    var plan := Plan([Plain("a", 0), Aggr(Count, None)], [Aggregator(1, Count)], [0]);
    result := Execute(plan, [[]], items, [0], shards);
  }

  /** The column of the table behind a column of the query. */
  function ColAt(items: seq<Item>, index: nat): nat {
    if index < |Expand(items)| && Expand(items)[index].Plain? then Expand(items)[index].col else 0
  }

  function ColsAt(items: seq<Item>, idx: seq<nat>): seq<nat> {
    seq(|idx|, g requires 0 <= g < |idx| => ColAt(items, idx[g]))
  }

  ghost predicate IsColumn(items: seq<Item>, field: string, index: nat) {
    && index < |Expand(items)| && Expand(items)[index].Plain?
    && exists j: nat :: Names(items, j, field) && items[j] == Expand(items)[index]
  }

  lemma GroupIsColumn(items: seq<Item>, field: string, index: nat)
    requires Groups(items, field, index)
    ensures IsColumn(items, field, index)
  {
    var j :| GroupAt(items, field, index, j);
    OwnColumns(items, j);
  }

  /** The group columns that the planner found are the plain columns that GROUP BY names. */
  lemma PlannedQuery(items: seq<Item>, fields: seq<string>, idx: seq<nat>)
    requires |idx| == |fields| && forall g | 0 <= g < |fields| :: Groups(items, fields[g], idx[g])
    ensures Pushed(items, ColsAt(items, idx), idx).Valid()
    ensures forall g | 0 <= g < |fields| :: IsColumn(items, fields[g], idx[g])
  {
    ExpandedHasNoAvg(items, |items|);
    forall g | 0 <= g < |fields| ensures IsColumn(items, fields[g], idx[g]) {
      GroupIsColumn(items, fields[g], idx[g]);
    }
    forall g | 0 <= g < |idx| ensures idx[g] < |Expand(items)| && Expand(items)[idx[g]].Plain? {
      assert IsColumn(items, fields[g], idx[g]);
    }
  }
}
