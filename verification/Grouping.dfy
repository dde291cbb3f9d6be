/** GROUP BY with aggregates: what a query answers, on one table and on the shards of a split. */
module Grouping {
  import opened Seqs
  import opened Rows
  import opened AggregatePlan
  import opened Aggregate

  type Key = seq<Num>

  function KeyNums(row: Row, cols: seq<nat>): (key: Key)
    ensures |key| == |cols| && forall g | 0 <= g < |cols| :: key[g] == NumOf(At(row, cols[g]))
  {
    seq(|cols|, g requires 0 <= g < |cols| => NumOf(At(row, cols[g])))
  }

  function IfKey(row: Row, cols: seq<nat>, key: Key): seq<Row> {
    if KeyNums(row, cols) == key then [row] else []
  }

  /** The rows of one group. */
  function WithKey(rows: seq<Row>, cols: seq<nat>, key: Key): seq<Row> {
    FlatMap((row: Row) => IfKey(row, cols, key), rows)
  }

  // ----- The answer of a grouped query ----------------------------------------------------------

  ghost predicate Occurs(v: Value, col: nat, group: seq<Row>) {
    exists row :: row in group && NumOf(v) == NumOf(At(row, col))
  }

  /** The value of a select item on a group; a plain column has the value of some row of the group. */
  ghost predicate ItemHolds(v: Value, item: Item, cols: seq<nat>, group: seq<Row>) {
    match item
    case Plain(_, col) => cols != [] ==> Occurs(v, col, group)
    case Aggr(fn, arg) => NumOf(v) == SqlAgg(fn, Args(group, arg))
  }

  ghost predicate RowFor(row: Row, items: seq<Item>, cols: seq<nat>, group: seq<Row>) {
    |row| == |items| && forall c | 0 <= c < |items| :: ItemHolds(row[c], items[c], cols, group)
  }

  /** One group for each key of the table; without GROUP BY there is one group, even of no rows. */
  ghost predicate KeysOf(keys: seq<Key>, cols: seq<nat>, rows: seq<Row>) {
    && Distinct(keys)
    && (forall row | row in rows :: KeyNums(row, cols) in keys)
    && (if cols == [] then keys == [[]] else forall key | key in keys ::
      exists row :: row in rows && KeyNums(row, cols) == key)
  }

  /** SELECT items FROM rows GROUP BY cols, with its rows in the order of the keys. */
  ghost predicate Grouped(result: seq<Row>, keys: seq<Key>, items: seq<Item>, cols: seq<nat>, rows: seq<Row>) {
    && KeysOf(keys, cols, rows) && |result| == |keys|
    && forall i | 0 <= i < |keys| :: RowFor(result[i], items, cols, WithKey(rows, cols, keys[i]))
  }

  // ----- The answers of the shards ----------------------------------------------------------------

  /** The query of the shards, with the group columns at `idx`. */
  datatype Query = Query(items: seq<Item>, cols: seq<nat>, idx: seq<nat>) {
    predicate Valid() {
      && |idx| == |cols|
      && (forall g | 0 <= g < |idx| :: idx[g] < |items| && items[idx[g]].Plain? && items[idx[g]].col == cols[g])
      && (forall c | 0 <= c < |items| :: !IsAvg(items[c]))
    }
  }

  lemma KeyIsKept(q: Query, row: Row, rows: seq<Row>, key: Key)
    requires q.Valid() && RowFor(row, q.items, q.cols, WithKey(rows, q.cols, key)) && |key| == |q.cols|
    ensures KeyNums(row, q.idx) == key
  {
    var group := WithKey(rows, q.cols, key);
    forall g | 0 <= g < |key| ensures NumOf(At(row, q.idx[g])) == key[g] {
      assert ItemHolds(row[q.idx[g]], q.items[q.idx[g]], q.cols, group);
      var x :| x in group && NumOf(row[q.idx[g]]) == NumOf(At(x, q.cols[g]));
      FlatMapMember((row: Row) => IfKey(row, q.cols, key), rows, x);
      assert KeyNums(x, q.cols) == key;
    }
  }

  /** Among rows with different keys at most one has a given key. */
  lemma {:induction false} OneWithKey(answer: seq<Row>, keys: seq<Key>, idx: seq<nat>, key: Key)
    requires |answer| == |keys| && Distinct(keys) && forall i | 0 <= i < |keys| :: KeyNums(answer[i], idx) == keys[i]
    ensures key !in keys ==> WithKey(answer, idx, key) == []
    ensures forall i | 0 <= i < |keys| && keys[i] == key :: WithKey(answer, idx, key) == [answer[i]]
  {
    if keys != [] {
      var n := |keys| - 1;
      assert keys == keys[..n] + [keys[n]];
      OneWithKey(answer[..n], keys[..n], idx, key);
    }
  }

  /** `run` holds the partial rows of a group. */
  ghost predicate Combined(run: seq<Row>, q: Query, group: seq<Row>) {
    && (run == [] ==> group == [])
    && (forall row | row in run :: PlainsHold(row, q, group))
    && (run != [] ==> forall c | 0 <= c < |q.items| && q.items[c].Aggr? :: Folds(run, q.items[c], c, group))
  }

  ghost predicate PlainsHold(row: Row, q: Query, group: seq<Row>) {
    |row| == |q.items| && forall c | 0 <= c < |row| && q.items[c].Plain? :: ItemHolds(row[c], q.items[c], q.cols, group)
  }

  ghost predicate Folds(run: seq<Row>, item: Item, c: nat, group: seq<Row>)
    requires item.Aggr?
  {
    FoldNum(item.fn, run, c) == SqlAgg(item.fn, Args(group, item.arg))
  }

  lemma CombinedOne(row: Row, q: Query, group: seq<Row>)
    requires RowFor(row, q.items, q.cols, group)
    ensures Combined([row], q, group)
  {
    forall c | 0 <= c < |q.items| && q.items[c].Aggr? ensures Folds([row], q.items[c], c, group) {
      assert [row][..0] == [];
      assert FoldNum(q.items[c].fn, [row], c) == NumOf(row[c]);
      assert ItemHolds(row[c], q.items[c], q.cols, group);
    }
  }

  lemma PlainsGrow(row: Row, q: Query, a: seq<Row>, b: seq<Row>, group: seq<Row>)
    requires PlainsHold(row, q, group) && group in {a, b}
    ensures PlainsHold(row, q, a + b)
  {
    forall c | 0 <= c < |row| && q.items[c].Plain? ensures ItemHolds(row[c], q.items[c], q.cols, a + b) {
      assert ItemHolds(row[c], q.items[c], q.cols, group);
      if q.cols != [] {
        var x :| x in group && NumOf(row[c]) == NumOf(At(x, q.items[c].col));
        assert x in a + b;
      }
    }
  }

  lemma FoldsAppend(r: seq<Row>, s: seq<Row>, q: Query, c: nat, a: seq<Row>, b: seq<Row>)
    requires q.Valid() && c < |q.items| && q.items[c].Aggr?
    requires Folds(r, q.items[c], c, a) && Folds(s, q.items[c], c, b)
    ensures Folds(r + s, q.items[c], c, a + b)
  {
    var item := q.items[c];
    FoldAppends(item.fn, r, s, c);
    FlatMapAppends((row: Row) => ArgOf(row, item.arg), a, b);
    AggAppends(item.fn, Args(a, item.arg), Args(b, item.arg));
  }

  lemma CombinedAppends(r: seq<Row>, s: seq<Row>, q: Query, a: seq<Row>, b: seq<Row>)
    requires q.Valid() && Combined(r, q, a) && Combined(s, q, b)
    ensures Combined(r + s, q, a + b)
  {
    if r == [] {
      assert r + s == s && a + b == b;
    } else if s == [] {
      assert r + s == r && a + b == a;
    } else {
      forall row | row in r + s ensures PlainsHold(row, q, a + b) {
        PlainsGrow(row, q, a, b, if row in r then a else b);
      }
      forall c | 0 <= c < |q.items| && q.items[c].Aggr? ensures Folds(r + s, q.items[c], c, a + b) {
        FoldsAppend(r, s, q, c, a, b);
      }
    }
  }

  lemma CombinedPermutes(r: seq<Row>, s: seq<Row>, q: Query, group: seq<Row>)
    requires Combined(r, q, group) && multiset(r) == multiset(s)
    ensures Combined(s, q, group)
  {
    assert |multiset(r)| == |multiset(s)|;
    forall row | row in s ensures PlainsHold(row, q, group) {
      assert row in multiset(s);
    }
    forall c | 0 <= c < |q.items| && q.items[c].Aggr? && s != [] ensures Folds(s, q.items[c], c, group) {
      FoldPermutes(q.items[c].fn, r, s, c);
    }
  }

  ghost predicate Answers(answer: seq<Row>, q: Query, rows: seq<Row>) {
    exists keys :: Grouped(answer, keys, q.items, q.cols, rows)
  }

  lemma NoneWithKey(rows: seq<Row>, cols: seq<nat>, key: Key)
    requires forall row | row in rows :: KeyNums(row, cols) != key
    ensures WithKey(rows, cols, key) == []
  {
    FlatMapNothing((row: Row) => IfKey(row, cols, key), rows);
  }

  /** One shard: its partial row for a key, if any, stands for its rows with that key. */
  lemma ShardCombines(answer: seq<Row>, q: Query, rows: seq<Row>, key: Key)
    requires q.Valid() && Answers(answer, q, rows) && |key| == |q.cols|
    ensures Combined(WithKey(answer, q.idx, key), q, WithKey(rows, q.cols, key))
  {
    var keys :| Grouped(answer, keys, q.items, q.cols, rows);
    forall i | 0 <= i < |keys| ensures KeyNums(answer[i], q.idx) == keys[i] {
      KeyLength(keys, q.cols, rows, i);
      KeyIsKept(q, answer[i], rows, keys[i]);
    }
    OneWithKey(answer, keys, q.idx, key);
    if key in keys {
      var i :| 0 <= i < |keys| && keys[i] == key;
      CombinedOne(answer[i], q, WithKey(rows, q.cols, key));
    } else {
      NoneWithKey(rows, q.cols, key);
    }
  }

  lemma KeyLength(keys: seq<Key>, cols: seq<nat>, rows: seq<Row>, i: nat)
    requires KeysOf(keys, cols, rows) && i < |keys|
    ensures |keys[i]| == |cols|
  {
    assert keys[i] in keys;
    if cols != [] {
      var row :| row in rows && KeyNums(row, cols) == keys[i];
    }
  }

  /** All shards: the partial rows with a key stand for all rows with that key. */
  lemma {:induction false} ShardsCombine(answers: seq<seq<Row>>, q: Query, shards: seq<seq<Row>>, key: Key)
    requires q.Valid() && |key| == |q.cols|
    requires |answers| == |shards| && forall i | 0 <= i < |shards| :: Answers(answers[i], q, shards[i])
    ensures Combined(WithKey(Flatten(answers), q.idx, key), q, WithKey(Flatten(shards), q.cols, key))
  {
    if shards != [] {
      var n := |shards| - 1;
      ShardsCombine(answers[..n], q, shards[..n], key);
      ShardCombines(answers[n], q, shards[n], key);
      WithKeyAppends(Flatten(answers[..n]), answers[n], q.idx, key);
      WithKeyAppends(Flatten(shards[..n]), shards[n], q.cols, key);
      CombinedAppends(WithKey(Flatten(answers[..n]), q.idx, key), WithKey(answers[n], q.idx, key), q,
                      WithKey(Flatten(shards[..n]), q.cols, key), WithKey(shards[n], q.cols, key));
    }
  }

  lemma WithKeyAppends(a: seq<Row>, b: seq<Row>, cols: seq<nat>, key: Key)
    ensures WithKey(a + b, cols, key) == WithKey(a, cols, key) + WithKey(b, cols, key)
  {
    FlatMapAppends((row: Row) => IfKey(row, cols, key), a, b);
  }
}
