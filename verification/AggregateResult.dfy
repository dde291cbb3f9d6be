/** From folded groups to the rows of the client: the results of the aggregators, and the columns that are removed. */
module AggregateResult {
  import opened Rows
  import opened AggregatePlan
  import opened Aggregate
  import opened AggregateOperator

  // ----- The value of an item -------------------------------------------------------------------

  /** What the client sees for item t: the folded value, or the quotient of the two of avg. */
  function Final(items: seq<Item>, row: Row, ctxs: seq<Value>, t: nat): Value
    requires t < |items| && |ctxs| == |Aggregators(items)|
  {
    OwnColumns(items, t);
    if items[t].Plain? then At(row, Pos(items, t))
    else if items[t].fn == Avg then Divide(ctxs[Off(items, t) + 1], ctxs[Off(items, t) + 2])
    else ctxs[Off(items, t)]
  }

  ghost predicate FinalUpTo(items: seq<Item>, row: Row, ctxs: seq<Value>, x: Row, j: nat) {
    && j <= |items| && |ctxs| == |Aggregators(items)| && |x| == |row| == |Expand(items)|
    && (forall t {:trigger Final(items, row, ctxs, t)} | 0 <= t < j ::
      At(x, Pos(items, t)) == Final(items, row, ctxs, t))
    && (forall c | Pos(items, j) <= c < |x| :: x[c] == row[c])
  }

  /** The second column of an item. */
  function Second(items: seq<Item>, j: nat): nat
    requires j <= |items|
  {
    Pos(items, j) + 1
  }

  /** The second columns of the averages among the first j items. */
  function AvgCols(items: seq<Item>, j: nat): seq<nat>
    requires j <= |items|
  {
    if j == 0 then [] else AvgCols(items, j - 1) + (if IsAvg(items[j - 1]) then [Second(items, j - 1)] else [])
  }

  /** Setting the column of item j leaves the earlier ones alone. */
  lemma FinalNext(items: seq<Item>, row: Row, ctxs: seq<Value>, x: Row, j: nat)
    requires FinalUpTo(items, row, ctxs, x, j) && j < |items|
    ensures Pos(items, j) < |x|
    ensures items[j].Plain? ==> FinalUpTo(items, row, ctxs, x, j + 1)
    ensures items[j].Aggr? ==> FinalUpTo(items, row, ctxs, x[Pos(items, j) := Final(items, row, ctxs, j)], j + 1)
  {
    ExpandedAt(items, j, 0, |items|);
    if items[j].Aggr? {
      SetItem(items, row, ctxs, x, j, x[Pos(items, j) := Final(items, row, ctxs, j)]);
    }
  }

  lemma SetItem(items: seq<Item>, row: Row, ctxs: seq<Value>, x: Row, j: nat, x': Row)
    requires FinalUpTo(items, row, ctxs, x, j) && j < |items| && |x'| == |x| && Pos(items, j) < |x|
    requires x'[Pos(items, j)] == Final(items, row, ctxs, j)
    requires forall c | 0 <= c < |x| && c != Pos(items, j) :: x'[c] == x[c]
    requires Pos(items, j) < Pos(items, j + 1)
    ensures FinalUpTo(items, row, ctxs, x', j + 1)
  {
    forall t | 0 <= t < j + 1 ensures At(x', Pos(items, t)) == Final(items, row, ctxs, t) {
      if t < j {
        EarlierItem(items, row, ctxs, x, j, t);
      }
    }
  }

  lemma EarlierItem(items: seq<Item>, row: Row, ctxs: seq<Value>, x: Row, j: nat, t: nat)
    requires FinalUpTo(items, row, ctxs, x, j) && t < j < |items|
    ensures Pos(items, t) < Pos(items, j) && At(x, Pos(items, t)) == Final(items, row, ctxs, t)
  {
    PosGrows(items, t, j);
  }

  lemma {:induction false} SkipPlains(items: seq<Item>, row: Row, ctxs: seq<Value>, x: Row, j: nat) returns (k: nat)
    requires FinalUpTo(items, row, ctxs, x, j)
    ensures j <= k <= |items| && FinalUpTo(items, row, ctxs, x, k) && AvgCols(items, k) == AvgCols(items, j)
    ensures Off(items, k) == Off(items, j) && (k < |items| ==> items[k].Aggr?)
    decreases |items| - j
  {
    k := j;
    if j < |items| && items[j].Plain? {
      FinalNext(items, row, ctxs, x, j);
      k := SkipPlains(items, row, ctxs, x, j + 1);
    }
  }

  /** The aggregators of the next item stand at i. */
  lemma NextAggregators(items: seq<Item>, aggrs: seq<Aggregator>, j: nat)
    requires aggrs == Aggregators(items) && j < |items| && items[j].Aggr?
    ensures var i := Off(items, j);
      && i < |aggrs| && aggrs[i] == Aggregator(Pos(items, j), items[j].fn)
      && (items[j].fn == Avg ==> i + 2 < |aggrs|)
      && Off(items, j + 1) == i + (if items[j].fn == Avg then 3 else 1)
  {
    OwnColumns(items, j);
  }

  /** Where the loop over the aggregators stands. */
  ghost predicate ResultsUpTo(items: seq<Item>, row: Row, ctxs: seq<Value>, x: Row, deIdxs: seq<nat>, i: nat, j: nat) {
    && FinalUpTo(items, row, ctxs, x, j) && deIdxs == AvgCols(items, j)
    && i == Off(items, j) && (j < |items| ==> items[j].Aggr?)
  }

  /** Item j has been dealt with; plain items that follow need nothing. */
  lemma ResultsNext(items: seq<Item>, aggrs: seq<Aggregator>, row: Row, ctxs: seq<Value>, x: Row, deIdxs: seq<nat>,
                    i: nat, j: nat)
    returns (j': nat)
    requires aggrs == Aggregators(items) && ResultsUpTo(items, row, ctxs, x, deIdxs, i, j) && j < |items|
    ensures Pos(items, j) < |x| && j < j' <= |items|
    ensures ResultsUpTo(items, row, ctxs, x[Pos(items, j) := Final(items, row, ctxs, j)],
                        if IsAvg(items[j]) then deIdxs + [Second(items, j)] else deIdxs,
                          i + (if IsAvg(items[j]) then 3 else 1), j')
  {
    NextAggregators(items, aggrs, j);
    FinalNext(items, row, ctxs, x, j);
    j' := SkipPlains(items, row, ctxs, x[Pos(items, j) := Final(items, row, ctxs, j)], j + 1);
  }

  /** The result of one aggregator, or of the three of an avg. */
  method OneResult(aggrs: seq<Aggregator>, ctxs: seq<Value>, x: Row, deIdxs: seq<nat>, i: nat,
                   ghost items: seq<Item>, ghost row: Row, ghost j: nat)
    returns (x': Row, deIdxs': seq<nat>, i': nat, ghost j': nat)
    requires aggrs == Aggregators(items) && ResultsUpTo(items, row, ctxs, x, deIdxs, i, j) && i < |aggrs|
    ensures ResultsUpTo(items, row, ctxs, x', deIdxs', i', j') && i < i'
  {
    OffBound(items, aggrs, j);
    NextAggregators(items, aggrs, j);
    j' := ResultsNext(items, aggrs, row, ctxs, x, deIdxs, i, j);
    var aggr := aggrs[i];
    var value := if aggr.typ == Avg then Divide(ctxs[i + 1], ctxs[i + 2]) else ctxs[i];
    var second: nat := aggr.index + 1;
    assert value == Final(items, row, ctxs, j) && second == Second(items, j);
    x' := x[aggr.index := value];
    deIdxs' := if aggr.typ == Avg then deIdxs + [second] else deIdxs;
    i' := if aggr.typ == Avg then i + 3 else i + 1;
  }

  /** Writes the results of a group into its row; the indexes are those of the columns to remove. */
  method GetResults(aggrs: seq<Aggregator>, ctxs: seq<Value>, row: Row, ghost items: seq<Item>)
    returns (x: Row, deIdxs: seq<nat>)
    requires aggrs == Aggregators(items) && |ctxs| == |aggrs| && |row| == |Expand(items)|
    ensures FinalUpTo(items, row, ctxs, x, |items|) && deIdxs == AvgCols(items, |items|)
  {
    x, deIdxs := row, [];
    var i := 0;
    ghost var j := ResultsStart(items, row, ctxs);
    while i < |aggrs|
      invariant ResultsUpTo(items, row, ctxs, x, deIdxs, i, j)
      decreases |aggrs| - i
    {
      x, deIdxs, i, j := OneResult(aggrs, ctxs, x, deIdxs, i, items, row, j);
    }
    OffBound(items, aggrs, j);
    assert j == |items|;
  }

  lemma ResultsStart(items: seq<Item>, row: Row, ctxs: seq<Value>) returns (j: nat)
    requires |ctxs| == |Aggregators(items)| && |row| == |Expand(items)|
    ensures ResultsUpTo(items, row, ctxs, row, [], 0, j)
  {
    j := SkipPlains(items, row, ctxs, row, 0);
  }

  lemma OffBound(items: seq<Item>, aggrs: seq<Aggregator>, j: nat)
    requires aggrs == Aggregators(items) && j <= |items| && (j < |items| ==> items[j].Aggr?)
    ensures Off(items, j) <= |aggrs| && (Off(items, j) < |aggrs| <==> j < |items|)
  {
    if j < |items| {
      NextAggregators(items, aggrs, j);
    }
  }

  // ----- Removing the second columns of the averages -----------------------------------------------

  function Kept(row: Row, idxs: seq<nat>, c: nat): Row
    requires c <= |row|
  {
    if c == 0 then [] else Kept(row, idxs, c - 1) + (if c - 1 in idxs then [] else [row[c - 1]])
  }

  method RemoveColumns(row: Row, idxs: seq<nat>) returns (r: Row)
    ensures r == Kept(row, idxs, |row|)
  {
    r := [];
    for i := 0 to |row|
      invariant r == Kept(row, idxs, i)
    {
      if i !in idxs {
        r := r + [row[i]];
      }
    }
  }

  lemma {:induction false} KeptIgnores(row: Row, idxs: seq<nat>, k: nat, c: nat)
    requires c <= |row| && c <= k
    ensures Kept(row, idxs + [k], c) == Kept(row, idxs, c)
  {
    if c > 0 {
      KeptIgnores(row, idxs, k, c - 1);
    }
  }

  lemma {:induction false} AvgColsBound(items: seq<Item>, j: nat)
    requires j <= |items|
    ensures forall c | c in AvgCols(items, j) :: c < Pos(items, j)
  {
    if j > 0 {
      AvgColsBound(items, j - 1);
    }
  }

  /** What is left of the first j items is one column for each. */
  lemma {:induction false} KeptIsItems(items: seq<Item>, x: Row, j: nat)
    requires j <= |items| && |x| >= Pos(items, j)
    ensures |Kept(x, AvgCols(items, j), Pos(items, j))| == j
    ensures forall t | 0 <= t < j :: Kept(x, AvgCols(items, j), Pos(items, j))[t] == At(x, Pos(items, t))
  {
    if j > 0 {
      KeptIsItems(items, x, j - 1);
      KeptLast(items, x, j);
      var before, after := Kept(x, AvgCols(items, j - 1), Pos(items, j - 1)), Kept(x, AvgCols(items, j), Pos(items, j));
      forall t | 0 <= t < j ensures after[t] == At(x, Pos(items, t)) {
        if t < j - 1 {
          assert after[t] == before[t];
        }
      }
    }
  }

  lemma KeptLast(items: seq<Item>, x: Row, j: nat)
    requires 0 < j <= |items| && |x| >= Pos(items, j)
    ensures var p := Pos(items, j - 1);
            p < |x| && Kept(x, AvgCols(items, j), Pos(items, j)) == Kept(x, AvgCols(items, j - 1), p) + [x[p]]
  {
    var p, idxs := Pos(items, j - 1), AvgCols(items, j - 1);
    AvgColsBound(items, j - 1);
    if IsAvg(items[j - 1]) {
      KeptPair(x, idxs, p);
    } else {
      assert AvgCols(items, j) == idxs;
      KeptSingle(x, idxs, p);
    }
  }

  lemma KeptSingle(x: Row, idxs: seq<nat>, p: nat)
    requires p + 1 <= |x| && forall c | c in idxs :: c < p
    ensures Kept(x, idxs, p + 1) == Kept(x, idxs, p) + [x[p]]
  {
  }

  lemma KeptPair(x: Row, idxs: seq<nat>, p: nat)
    requires p + 2 <= |x| && forall c | c in idxs :: c < p
    ensures Kept(x, idxs + [p + 1], p + 2) == Kept(x, idxs, p) + [x[p]]
  {
    KeptIgnores(x, idxs, p + 1, p);
    assert p !in idxs + [p + 1] && p + 1 in idxs + [p + 1];
    assert Kept(x, idxs + [p + 1], p + 1) == Kept(x, idxs, p) + [x[p]];
  }

  /** The row of a group as the client gets it. */
  method FinishGroup(aggrs: seq<Aggregator>, group: Group, ghost items: seq<Item>) returns (r: Row)
    requires aggrs == Aggregators(items) && |group.ctxs| == |aggrs| && |group.row| == |Expand(items)|
    ensures |r| == |items| && forall t | 0 <= t < |items| :: r[t] == Final(items, group.row, group.ctxs, t)
  {
    var x, deIdxs := GetResults(aggrs, group.ctxs, group.row, items);
    KeptIsItems(items, x, |items|);
    r := RemoveColumns(x, deIdxs);
  }
}
