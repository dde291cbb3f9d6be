/** The aggregate operator: sorts the partial rows by group, folds each group, and undoes the expansion of avg. */
module AggregateOperator {
  import opened Seqs
  import opened Sorting
  import opened Rows
  import opened AggregatePlan
  import opened Aggregate
  import opened Grouping

  // ----- Keys ------------------------------------------------------------------------------------

  predicate KeysEqual(a: Row, b: Row, idx: seq<nat>) {
    forall g | 0 <= g < |idx| :: NullsafeCompare(At(a, idx[g]), At(b, idx[g])) == 0
  }

  lemma KeysEqualIsSameKey(a: Row, b: Row, idx: seq<nat>)
    ensures KeysEqual(a, b, idx) <==> KeyNums(a, idx) == KeyNums(b, idx)
    ensures KeysEqual(a, b, idx) <==> CompareKeys(KeyOf(a, idx), KeyOf(b, idx)) == 0
  {
    CompareZero(KeyOf(a, idx), KeyOf(b, idx));
    forall g | 0 <= g < |idx|
      ensures NullsafeCompare(At(a, idx[g]), At(b, idx[g])) == 0 <==> NumOf(At(a, idx[g])) == NumOf(At(b, idx[g]))
    {
    }
    if KeyNums(a, idx) == KeyNums(b, idx) {
      forall g | 0 <= g < |idx| ensures NullsafeCompare(At(a, idx[g]), At(b, idx[g])) == 0 {
        assert KeyNums(a, idx)[g] == KeyNums(b, idx)[g];
      }
    }
    if KeysEqual(a, b, idx) {
      forall g | 0 <= g < |idx| ensures NullsafeCompare(KeyOf(a, idx)[g], KeyOf(b, idx)[g]) == 0 {
        assert NullsafeCompare(At(a, idx[g]), At(b, idx[g])) == 0;
      }
    }
  }

  /** In sorted rows a key that was left does not come back. */
  lemma KeyIsLeft(a: Row, b: Row, c: Row, idx: seq<nat>)
    requires KeyLe(idx)(a, b) && KeyLe(idx)(b, c) && KeyNums(a, idx) != KeyNums(b, idx)
    ensures KeyLe(idx)(a, c) && KeyNums(a, idx) != KeyNums(c, idx)
  {
    var x, y, z := KeyOf(a, idx), KeyOf(b, idx), KeyOf(c, idx);
    KeysEqualIsSameKey(a, b, idx);
    KeysEqualIsSameKey(a, c, idx);
    CompareChains(x, y, z);
  }

  // ----- Groups -------------------------------------------------------------------------------------

  datatype Group = Group(row: Row, ctxs: seq<Value>)

  /** The running values after the rows of a group. */
  ghost predicate Evaluated(aggrs: seq<Aggregator>, ctxs: seq<Value>, run: seq<Row>) {
    && run != [] && |ctxs| == |aggrs|
    && forall a | 0 <= a < |aggrs| && aggrs[a].typ != Avg :: ctxs[a] == FoldCol(aggrs[a].typ, run, aggrs[a].index)
  }

  method InitCtxs(aggrs: seq<Aggregator>, row: Row) returns (ctxs: seq<Value>)
    ensures Evaluated(aggrs, ctxs, [row])
  {
    ctxs := [];
    for a := 0 to |aggrs|
      invariant |ctxs| == a && forall b | 0 <= b < a :: ctxs[b] == At(row, aggrs[b].index)
    {
      ctxs := ctxs + [At(row, aggrs[a].index)];
    }
  }

  method UpdateCtxs(aggrs: seq<Aggregator>, ctxs: seq<Value>, row: Row, ghost run: seq<Row>) returns (r: seq<Value>)
    requires Evaluated(aggrs, ctxs, run)
    ensures Evaluated(aggrs, r, run + [row])
  {
    ghost var more := run + [row];
    assert more[..|run|] == run;
    r := ctxs;
    for a := 0 to |aggrs|
      invariant |r| == |aggrs| && forall b | a <= b < |aggrs| :: r[b] == ctxs[b]
      invariant forall b | 0 <= b < a && aggrs[b].typ != Avg :: r[b] == FoldCol(aggrs[b].typ, more, aggrs[b].index)
    {
      if aggrs[a].typ != Avg {
        r := r[a := Combine(aggrs[a].typ, r[a], At(row, aggrs[a].index))];
      }
    }
  }

  ghost predicate SameKeyRun(run: seq<Row>, idx: seq<nat>) {
    run != [] && forall row | row in run :: KeyNums(row, idx) == KeyNums(run[0], idx)
  }

  ghost predicate Rises(a: seq<Row>, b: seq<Row>, idx: seq<nat>) {
    a != [] && b != [] && KeyLe(idx)(a[0], b[0]) && KeyNums(a[0], idx) != KeyNums(b[0], idx)
  }

  /** Runs of rows with one key each, in increasing order of the keys. */
  ghost predicate Runs(runs: seq<seq<Row>>, idx: seq<nat>) {
    && (forall g | 0 <= g < |runs| :: SameKeyRun(runs[g], idx))
    && (forall g, h | 0 <= g < h < |runs| :: Rises(runs[g], runs[h], idx))
  }

  lemma RunGrows(runs: seq<seq<Row>>, idx: seq<nat>, row: Row)
    requires runs != [] && Runs(runs, idx) && KeyNums(runs[|runs| - 1][0], idx) == KeyNums(row, idx)
    ensures Runs(runs[|runs| - 1 := runs[|runs| - 1] + [row]], idx)
    ensures Flatten(runs[|runs| - 1 := runs[|runs| - 1] + [row]]) == Flatten(runs) + [row]
  {
    var n := |runs| - 1;
    var run' := runs[n] + [row];
    var runs' := runs[n := run'];
    assert runs'[..n] == runs[..n];
    assert SameKeyRun(runs[n], idx) && run'[0] == runs[n][0];
    assert SameKeyRun(run', idx);
    forall g | 0 <= g < n ensures Rises(runs[g], run', idx) {
      assert Rises(runs[g], runs[n], idx);
    }
  }

  lemma RisesOn(a: seq<Row>, b: seq<Row>, row: Row, idx: seq<nat>)
    requires Rises(a, b, idx) && Rises(b, [row], idx)
    ensures Rises(a, [row], idx)
  {
    KeyIsLeft(a[0], b[0], row, idx);
  }

  lemma RunsAppend(runs: seq<seq<Row>>, idx: seq<nat>, run: seq<Row>)
    requires Runs(runs, idx) && SameKeyRun(run, idx) && forall g | 0 <= g < |runs| :: Rises(runs[g], run, idx)
    ensures Runs(runs + [run], idx)
  {
    var runs' := runs + [run];
    forall g, h | 0 <= g < h < |runs'| ensures Rises(runs'[g], runs'[h], idx) {
      if h < |runs| {
        assert Rises(runs[g], runs[h], idx);
      }
    }
  }

  lemma FlattenAppend(runs: seq<seq<Row>>, run: seq<Row>)
    ensures Flatten(runs + [run]) == Flatten(runs) + run
  {
    assert (runs + [run])[..|runs|] == runs;
  }

  lemma RunStarts(runs: seq<seq<Row>>, idx: seq<nat>, row: Row)
    requires Runs(runs, idx) && (runs != [] ==> Rises(runs[|runs| - 1], [row], idx))
    ensures Runs(runs + [[row]], idx) && Flatten(runs + [[row]]) == Flatten(runs) + [row]
  {
    FlattenAppend(runs, [row]);
    forall g | 0 <= g < |runs| ensures Rises(runs[g], [row], idx) {
      if g < |runs| - 1 {
        RisesOn(runs[g], runs[|runs| - 1], row, idx);
      }
    }
    RunsAppend(runs, idx, [row]);
  }

  lemma {:induction false} FirstIsInside(runs: seq<seq<Row>>, g: nat)
    requires g < |runs| && runs[g] != []
    ensures runs[g][0] in Flatten(runs)
  {
    var n := |runs| - 1;
    if g < n {
      FirstIsInside(runs[..n], g);
    } else {
      assert runs[n][0] in runs[n];
    }
  }

  ghost predicate GroupOk(aggrs: seq<Aggregator>, group: Group, run: seq<Row>) {
    Evaluated(aggrs, group.ctxs, run) && group.row == run[0]
  }

  ghost predicate GroupsOk(aggrs: seq<Aggregator>, groups: seq<Group>, runs: seq<seq<Row>>) {
    |groups| == |runs| && forall g | 0 <= g < |groups| :: GroupOk(aggrs, groups[g], runs[g])
  }

  /** Takes a row into the last group if the keys are equal, or starts a group with it. */
  method AddRow(groups: seq<Group>, ghost runs: seq<seq<Row>>, row: Row, aggrs: seq<Aggregator>, idx: seq<nat>)
    returns (groups': seq<Group>, ghost runs': seq<seq<Row>>)
    requires Runs(runs, idx) && GroupsOk(aggrs, groups, runs) && (runs != [] ==> KeyLe(idx)(runs[|runs| - 1][0], row))
    ensures Runs(runs', idx) && Flatten(runs') == Flatten(runs) + [row] && GroupsOk(aggrs, groups', runs')
  {
    var n := |groups| - 1;
    if n >= 0 {
      assert GroupOk(aggrs, groups[n], runs[n]);
      KeysEqualIsSameKey(groups[n].row, row, idx);
    }
    if n >= 0 && KeysEqual(groups[n].row, row, idx) {
      RunGrows(runs, idx, row);
      var ctxs := UpdateCtxs(aggrs, groups[n].ctxs, row, runs[n]);
      groups' := groups[n := Group(groups[n].row, ctxs)];
      runs' := runs[n := runs[n] + [row]];
      assert GroupOk(aggrs, groups'[n], runs'[n]);
    } else {
      RunStarts(runs, idx, row);
      var ctxs := InitCtxs(aggrs, row);
      groups' := groups + [Group(row, ctxs)];
      runs' := runs + [[row]];
    }
  }

  /** Folds adjacent rows with equal keys into groups. */
  method BuildGroups(rows: seq<Row>, aggrs: seq<Aggregator>, idx: seq<nat>)
    returns (groups: seq<Group>, ghost runs: seq<seq<Row>>)
    requires Sorted(rows, KeyLe(idx))
    ensures Runs(runs, idx) && Flatten(runs) == rows && GroupsOk(aggrs, groups, runs)
    ensures forall g | 0 <= g < |groups| :: HoldsItsKey(aggrs, groups[g], rows, idx)
    ensures forall g, h | 0 <= g < h < |groups| :: KeyNums(groups[g].row, idx) != KeyNums(groups[h].row, idx)
  {
    groups, runs := [], [];
    for i := 0 to |rows|
      invariant Runs(runs, idx) && Flatten(runs) == rows[..i] && GroupsOk(aggrs, groups, runs)
    {
      LastIsBelow(rows, runs, idx, i);
      NextPrefix(rows, i);
      groups, runs := AddRow(groups, runs, rows[i], aggrs, idx);
    }
    assert rows[..|rows|] == rows;
    GroupsHoldKeys(aggrs, groups, runs, idx);
  }

  /** The values of a group are those of all rows with its key. */
  ghost predicate HoldsItsKey(aggrs: seq<Aggregator>, group: Group, rows: seq<Row>, idx: seq<nat>) {
    Evaluated(aggrs, group.ctxs, WithKey(rows, idx, KeyNums(group.row, idx)))
  }

  lemma GroupsHoldKeys(aggrs: seq<Aggregator>, groups: seq<Group>, runs: seq<seq<Row>>, idx: seq<nat>)
    requires Runs(runs, idx) && GroupsOk(aggrs, groups, runs)
    ensures forall g | 0 <= g < |groups| :: HoldsItsKey(aggrs, groups[g], Flatten(runs), idx)
    ensures forall g, h | 0 <= g < h < |groups| :: KeyNums(groups[g].row, idx) != KeyNums(groups[h].row, idx)
  {
    forall g | 0 <= g < |groups| ensures HoldsItsKey(aggrs, groups[g], Flatten(runs), idx) {
      assert GroupOk(aggrs, groups[g], runs[g]);
      RunIsGroup(runs, idx, g);
    }
    forall g, h | 0 <= g < h < |groups| ensures KeyNums(groups[g].row, idx) != KeyNums(groups[h].row, idx) {
      assert GroupOk(aggrs, groups[g], runs[g]) && GroupOk(aggrs, groups[h], runs[h]);
      assert Rises(runs[g], runs[h], idx);
    }
  }

  lemma LastIsBelow(rows: seq<Row>, runs: seq<seq<Row>>, idx: seq<nat>, i: nat)
    requires Sorted(rows, KeyLe(idx)) && i < |rows| && Runs(runs, idx) && Flatten(runs) == rows[..i]
    ensures runs != [] ==> KeyLe(idx)(runs[|runs| - 1][0], rows[i])
  {
    if runs != [] {
      FirstIsInside(runs, |runs| - 1);
      var k :| 0 <= k < i && rows[..i][k] == runs[|runs| - 1][0];
      assert rows[k] == runs[|runs| - 1][0];
    }
  }

  lemma NextPrefix(rows: seq<Row>, i: nat)
    requires i < |rows|
    ensures rows[..i + 1] == rows[..i] + [rows[i]]
  {
  }

  // ----- Runs are groups -----------------------------------------------------------------------------

  lemma OtherRun(run: seq<Row>, idx: seq<nat>, key: Key)
    requires SameKeyRun(run, idx)
    ensures WithKey(run, idx, key) == if KeyNums(run[0], idx) == key then run else []
  {
    if KeyNums(run[0], idx) == key {
      AllWithKey(run, idx, key);
    } else {
      NoneWithKey(run, idx, key);
    }
  }

  lemma {:induction false} AllWithKey(rows: seq<Row>, idx: seq<nat>, key: Key)
    requires forall row | row in rows :: KeyNums(row, idx) == key
    ensures WithKey(rows, idx, key) == rows
  {
    if rows != [] {
      AllWithKey(rows[..|rows| - 1], idx, key);
    }
  }

  /** No run but number g has the key. */
  ghost predicate OnlyRun(runs: seq<seq<Row>>, idx: seq<nat>, key: Key, g: nat) {
    forall h | 0 <= h < |runs| :: SameKeyRun(runs[h], idx) && (KeyNums(runs[h][0], idx) == key <==> h == g)
  }

  lemma {:induction false} RunsWithKey(runs: seq<seq<Row>>, idx: seq<nat>, key: Key, g: nat)
    requires OnlyRun(runs, idx, key, g)
    ensures WithKey(Flatten(runs), idx, key) == if g < |runs| then runs[g] else []
  {
    if runs != [] {
      var n := |runs| - 1;
      assert OnlyRun(runs[..n], idx, key, g);
      RunsWithKey(runs[..n], idx, key, g);
      WithKeyAppends(Flatten(runs[..n]), runs[n], idx, key);
      OtherRun(runs[n], idx, key);
    }
  }

  /** The rows with the key of a run are that run. */
  lemma RunIsGroup(runs: seq<seq<Row>>, idx: seq<nat>, g: nat)
    requires Runs(runs, idx) && g < |runs|
    ensures WithKey(Flatten(runs), idx, KeyNums(runs[g][0], idx)) == runs[g]
  {
    var key := KeyNums(runs[g][0], idx);
    forall h | 0 <= h < |runs| ensures SameKeyRun(runs[h], idx) && (KeyNums(runs[h][0], idx) == key <==> h == g) {
      assert h < g ==> Rises(runs[h], runs[g], idx);
      assert g < h ==> Rises(runs[g], runs[h], idx);
    }
    RunsWithKey(runs, idx, key, g);
  }

  /** A key that no run has is the key of no row. */
  lemma NoRun(runs: seq<seq<Row>>, idx: seq<nat>, key: Key)
    requires Runs(runs, idx) && forall g | 0 <= g < |runs| :: KeyNums(runs[g][0], idx) != key
    ensures WithKey(Flatten(runs), idx, key) == []
  {
    RunsWithKey(runs, idx, key, |runs|);
  }
}
