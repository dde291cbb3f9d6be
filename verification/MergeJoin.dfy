/** Sort-merge join: the sort, the walk over groups of equal keys, and its agreement with JoinSpec. */
module MergeJoin {
  import opened Sorting
  import opened Rows
  import opened JoinSpec
  import opened JoinPool

  predicate SameKeys(rows: seq<Row>, keys: seq<nat>, a: nat, b: nat)
    requires a < |rows| && b <= |rows|
  {
    forall i | a <= i < b :: CompareKeys(KeyOf(rows[a], keys), KeyOf(rows[i], keys)) == 0
  }

  /** rows[a..b] are the rows with the key of rows[a], and the rows behind them have greater keys. */
  predicate IsGroup(rows: seq<Row>, keys: seq<nat>, a: nat, b: nat) {
    && a <= b <= |rows|
    && (a < |rows| ==>
          && a < b
          && SameKeys(rows, keys, a, b)
          && (forall i | b <= i < |rows| :: CompareKeys(KeyOf(rows[a], keys), KeyOf(rows[i], keys)) < 0))
  }

  predicate Agree(row1: Row, row2: Row, key: nat) {
    NullsafeCompare(At(row1, key), At(row2, key)) == 0
  }

  lemma AgreeIsZero(row1: Row, row2: Row, keys: seq<nat>)
    ensures (forall k | 0 <= k < |keys| :: Agree(row1, row2, keys[k])) <==>
            CompareKeys(KeyOf(row1, keys), KeyOf(row2, keys)) == 0
  {
    var a, b := KeyOf(row1, keys), KeyOf(row2, keys);
    CompareZero(a, b);
    assert forall k | 0 <= k < |keys| :: a[k] == At(row1, keys[k]) && b[k] == At(row2, keys[k]);
  }

  method KeysEqual(row1: Row, row2: Row, keys: seq<nat>) returns (equal: bool)
    ensures equal <==> CompareKeys(KeyOf(row1, keys), KeyOf(row2, keys)) == 0
  {
    equal := true;
    for k := 0 to |keys|
      invariant equal && forall c | 0 <= c < k :: Agree(row1, row2, keys[c])
    {
      if !Agree(row1, row2, keys[k]) {
        equal := false;
        break;
      }
    }
    AgreeIsZero(row1, row2, keys);
  }

  lemma LaterRowsAreGreater(rows: seq<Row>, keys: seq<nat>, a: nat, b: nat)
    requires Sorted(rows, KeyLe(keys)) && a < b < |rows|
    requires CompareKeys(KeyOf(rows[a], keys), KeyOf(rows[b], keys)) != 0
    ensures forall i | b <= i < |rows| :: CompareKeys(KeyOf(rows[a], keys), KeyOf(rows[i], keys)) < 0
  {
    assert KeyLe(keys)(rows[a], rows[b]);
    forall i | b < i < |rows| ensures CompareKeys(KeyOf(rows[a], keys), KeyOf(rows[i], keys)) < 0 {
      assert KeyLe(keys)(rows[b], rows[i]);
      CompareChains(KeyOf(rows[a], keys), KeyOf(rows[b], keys), KeyOf(rows[i], keys));
    }
  }

  lemma GroupStarts(rows: seq<Row>, keys: seq<nat>, a: nat)
    requires a < |rows|
    ensures SameKeys(rows, keys, a, a + 1)
    ensures keys == [] ==> SameKeys(rows, keys, a, |rows|)
  {
    AgreeIsZero(rows[a], rows[a], keys);
  }

  /** The next group of rows; empty at the end. Without keys all rows form one group. */
  method FetchSameKeyRows(rows: seq<Row>, keys: seq<nat>, index: nat) returns (chunk: seq<Row>, next: nat)
    requires Sorted(rows, KeyLe(keys)) && index <= |rows|
    requires keys == [] ==> index == 0 || index == |rows|
    ensures IsGroup(rows, keys, index, next) && chunk == rows[index..next]
    ensures keys == [] ==> next == |rows|
  {
    if index >= |rows| {
      return [], index;
    }
    GroupStarts(rows, keys, index);
    if |keys| == 0 {
      return rows, |rows|;
    }
    chunk, next := [rows[index]], index + 1;
    while next < |rows|
      invariant index < next <= |rows| && chunk == rows[index..next]
      invariant SameKeys(rows, keys, index, next)
    {
      var equal := KeysEqual(rows[index], rows[next], keys);
      if !equal {
        LaterRowsAreGreater(rows, keys, index, next);
        break;
      }
      chunk, next := chunk + [rows[next]], next + 1;
    }
  }

  lemma MatchingKeysCompareEqual(node: JoinNode, l: Row, r: Row)
    requires node.Valid() && KeysMatch(node, l, r)
    ensures CompareKeys(KeyOf(l, node.leftKeys), KeyOf(r, node.rightKeys)) == 0
  {
    CompareZero(KeyOf(l, node.leftKeys), KeyOf(r, node.rightKeys));
  }

  /** Some key column is NULL on both sides, after equal columns before it. */
  predicate CommonNull(node: JoinNode, l: Row, r: Row) {
    exists k :: 0 <= k < |node.leftKeys| && k < |node.rightKeys|
             && At(l, node.leftKeys[k]).Null? && At(r, node.rightKeys[k]).Null?
  }

  /** Compares the keys of two groups; a NULL in both keys ends the comparison early. */
  method CompareGroups(node: JoinNode, l: Row, r: Row) returns (cmp: int, isNull: bool)
    requires node.Valid()
    ensures cmp != 0 ==> cmp == CompareKeys(KeyOf(l, node.leftKeys), KeyOf(r, node.rightKeys)) && !isNull
    ensures cmp == 0 && !isNull ==> KeysMatch(node, l, r)
    ensures isNull ==> cmp == 0 && CommonNull(node, l, r)
  {
    cmp, isNull := 0, false;
    ghost var x, y := KeyOf(l, node.leftKeys), KeyOf(r, node.rightKeys);
    for k := 0 to |node.leftKeys|
      invariant cmp == 0 && !isNull
      invariant forall i | 0 <= i < k :: SqlHolds(Equal, At(l, node.leftKeys[i]), At(r, node.rightKeys[i]))
      invariant CompareKeys(x, y) == CompareKeys(x[k..], y[k..])
    {
      cmp := NullsafeCompare(At(l, node.leftKeys[k]), At(r, node.rightKeys[k]));
      if cmp != 0 {
        return;
      }
      if At(l, node.leftKeys[k]).Null? {
        isNull := true;
        return;
      }
      assert x[k..][1..] == x[k + 1..] && y[k..][1..] == y[k + 1..];
    }
  }

  // ----- The walk over both sides ---------------------------------------------------------

  /** No left row from ls on matches a right row before rs. */
  predicate Behind(node: JoinNode, left: seq<Row>, right: seq<Row>, ls: nat, rs: nat) {
    forall i, k | ls <= i < |left| && 0 <= k < rs && k < |right| :: !Matches(node, left[i], right[k])
  }

  /** A left group that is below the current right group matches nothing. */
  lemma LeftGroupIsBelow(node: JoinNode, left: seq<Row>, right: seq<Row>, ls: nat, le: nat, rs: nat, re: nat)
    requires node.Valid() && IsGroup(left, node.leftKeys, ls, le) && IsGroup(right, node.rightKeys, rs, re)
    requires ls < |left| && rs < |right|
    requires CompareKeys(KeyOf(left[ls], node.leftKeys), KeyOf(right[rs], node.rightKeys)) < 0
    ensures forall i, k | ls <= i < le && rs <= k < |right| :: !Matches(node, left[i], right[k])
  {
    forall i, k | ls <= i < le && rs <= k < |right| ensures !Matches(node, left[i], right[k]) {
      if KeysMatch(node, left[i], right[k]) {
        MatchingKeysCompareEqual(node, left[i], right[k]);
        var a, b := KeyOf(left[ls], node.leftKeys), KeyOf(left[i], node.leftKeys);
        var c, d := KeyOf(right[rs], node.rightKeys), KeyOf(right[k], node.rightKeys);
        CompareFlips(a, b);
        CompareFlips(b, d);
        CompareChains(c, d, b);
        CompareChains(a, c, b);
        assert false;
      }
    }
  }

  /** A right group that is below the current left group matches nothing from there on. */
  lemma RightGroupIsBelow(node: JoinNode, left: seq<Row>, right: seq<Row>, ls: nat, le: nat, rs: nat, re: nat)
    requires node.Valid() && IsGroup(left, node.leftKeys, ls, le) && IsGroup(right, node.rightKeys, rs, re)
    requires ls < |left| && rs < |right|
    requires CompareKeys(KeyOf(left[ls], node.leftKeys), KeyOf(right[rs], node.rightKeys)) > 0
    ensures forall i, k | ls <= i < |left| && rs <= k < re :: !Matches(node, left[i], right[k])
  {
    forall i, k | ls <= i < |left| && rs <= k < re ensures !Matches(node, left[i], right[k]) {
      if KeysMatch(node, left[i], right[k]) {
        MatchingKeysCompareEqual(node, left[i], right[k]);
        var a, b := KeyOf(left[ls], node.leftKeys), KeyOf(left[i], node.leftKeys);
        var c, d := KeyOf(right[rs], node.rightKeys), KeyOf(right[k], node.rightKeys);
        CompareFlips(a, c);
        CompareFlips(c, d);
        CompareFlips(b, d);
        CompareChains(a, b, d);
        CompareChains(a, d, c);
        assert false;
      }
    }
  }

  /** A NULL in both keys: neither group matches anything. */
  lemma NullGroupsMatchNothing(node: JoinNode, left: seq<Row>, right: seq<Row>, ls: nat, le: nat, rs: nat, re: nat)
    requires node.Valid() && IsGroup(left, node.leftKeys, ls, le) && IsGroup(right, node.rightKeys, rs, re)
    requires ls < |left| && rs < |right| && CommonNull(node, left[ls], right[rs])
    ensures forall i, r | ls <= i < le :: !Matches(node, left[i], r)
    ensures forall l, k | rs <= k < re :: !Matches(node, l, right[k])
  {
    var c :| 0 <= c < |node.leftKeys| && At(left[ls], node.leftKeys[c]).Null? && At(right[rs], node.rightKeys[c]).Null?;
    forall i, r | ls <= i < le ensures !Matches(node, left[i], r) {
      EqualKeysShareNull(left[ls], left[i], node.leftKeys, c);
      NullMatchesNothing(node, left[i], r, c);
    }
    forall l, k | rs <= k < re ensures !Matches(node, l, right[k]) {
      EqualKeysShareNull(right[rs], right[k], node.rightKeys, c);
      NullMatchesNothing(node, l, right[k], c);
    }
  }

  lemma NullMatchesNothing(node: JoinNode, l: Row, r: Row, c: nat)
    requires c < |node.leftKeys| && c < |node.rightKeys|
    requires At(l, node.leftKeys[c]).Null? || At(r, node.rightKeys[c]).Null?
    ensures !Matches(node, l, r)
  {
    assert !SqlHolds(Equal, At(l, node.leftKeys[c]), At(r, node.rightKeys[c]));
  }

  lemma EqualKeysShareNull(a: Row, b: Row, keys: seq<nat>, c: nat)
    requires c < |keys| && CompareKeys(KeyOf(a, keys), KeyOf(b, keys)) == 0 && At(a, keys[c]).Null?
    ensures At(b, keys[c]).Null?
  {
    CompareZero(KeyOf(a, keys), KeyOf(b, keys));
    assert NullsafeCompare(KeyOf(a, keys)[c], KeyOf(b, keys)[c]) == 0;
  }

  /** Groups with the same keys: all their pairs agree on the keys, and nobody else matches them. */
  lemma EqualGroups(node: JoinNode, left: seq<Row>, right: seq<Row>, ls: nat, le: nat, rs: nat, re: nat)
    requires node.Valid() && IsGroup(left, node.leftKeys, ls, le) && IsGroup(right, node.rightKeys, rs, re)
    requires ls < |left| && rs < |right| && KeysMatch(node, left[ls], right[rs])
    ensures forall i, k | ls <= i < le && rs <= k < re :: KeysMatch(node, left[i], right[k])
    ensures forall i, k | ls <= i < le && re <= k < |right| :: !Matches(node, left[i], right[k])
    ensures forall i, k | le <= i < |left| && rs <= k < re :: !Matches(node, left[i], right[k])
  {
    MatchingKeysCompareEqual(node, left[ls], right[rs]);
    forall i, k | ls <= i < le && rs <= k < re ensures KeysMatch(node, left[i], right[k]) {
      CompareZero(KeyOf(left[ls], node.leftKeys), KeyOf(left[i], node.leftKeys));
      CompareZero(KeyOf(right[rs], node.rightKeys), KeyOf(right[k], node.rightKeys));
      forall c | 0 <= c < |node.leftKeys|
        ensures SqlHolds(Equal, At(left[i], node.leftKeys[c]), At(right[k], node.rightKeys[c]))
      {
        assert SqlHolds(Equal, At(left[ls], node.leftKeys[c]), At(right[rs], node.rightKeys[c]));
        assert NullsafeCompare(KeyOf(left[ls], node.leftKeys)[c], KeyOf(left[i], node.leftKeys)[c]) == 0;
        assert NullsafeCompare(KeyOf(right[rs], node.rightKeys)[c], KeyOf(right[k], node.rightKeys)[c]) == 0;
      }
    }
    forall i, k | ls <= i < le && re <= k < |right| ensures !Matches(node, left[i], right[k]) {
      EqualGroupsEnd(KeyOf(left[ls], node.leftKeys), KeyOf(left[i], node.leftKeys),
                     KeyOf(right[rs], node.rightKeys), KeyOf(right[k], node.rightKeys));
      if KeysMatch(node, left[i], right[k]) {
        MatchingKeysCompareEqual(node, left[i], right[k]);
      }
    }
    forall i, k | le <= i < |left| && rs <= k < re ensures !Matches(node, left[i], right[k]) {
      EqualGroupsBegin(KeyOf(left[ls], node.leftKeys), KeyOf(left[i], node.leftKeys),
                       KeyOf(right[rs], node.rightKeys), KeyOf(right[k], node.rightKeys));
      if KeysMatch(node, left[i], right[k]) {
        MatchingKeysCompareEqual(node, left[i], right[k]);
      }
    }
  }

  lemma EqualGroupsEnd(a: seq<Value>, b: seq<Value>, c: seq<Value>, d: seq<Value>)
    requires |a| == |b| == |c| == |d|
    requires CompareKeys(a, b) == 0 && CompareKeys(a, c) == 0 && CompareKeys(c, d) < 0
    ensures CompareKeys(b, d) < 0
  {
    CompareFlips(a, b);
    CompareChains(b, a, c);
    CompareChains(b, c, d);
  }

  lemma EqualGroupsBegin(a: seq<Value>, b: seq<Value>, c: seq<Value>, d: seq<Value>)
    requires |a| == |b| == |c| == |d|
    requires CompareKeys(a, b) < 0 && CompareKeys(a, c) == 0 && CompareKeys(c, d) == 0
    ensures CompareKeys(b, d) > 0
  {
    CompareFlips(a, c);
    CompareFlips(c, d);
    CompareChains(d, c, a);
    CompareChains(d, a, b);
    CompareFlips(b, d);
  }

  /** The result for one more group of left rows. */
  lemma JoinPrefix(node: JoinNode, left: seq<Row>, right: seq<Row>, ls: nat, le: nat)
    requires ls <= le <= |left|
    ensures Join(node, left[..le], right) == Join(node, left[..ls], right) + Join(node, left[ls..le], right)
    ensures Join(node, left, right) == Join(node, left[..le], right) + Join(node, left[le..], right)
  {
    assert left[..le] == left[..ls] + left[ls..le];
    assert left == left[..le] + left[le..];
    JoinAppends(node, left[..ls], left[ls..le], right);
    JoinAppends(node, left[..le], left[le..], right);
  }

  /** One part after another, of a result in three parts: an overflow in the second is an overflow of the whole. */
  lemma PartDone(before: seq<Row>, mid: seq<Row>, after: seq<Row>, a: seq<Row>, b: seq<Row>, c: seq<Row>,
                 maxrow: int, err: bool)
    requires Outcome(before, mid, a, maxrow, false) && Outcome(mid, after, b, maxrow, err)
    ensures Outcome(before, after, a + b, maxrow, err)
    ensures err ==> Outcome(before, after, a + b + c, maxrow, err)
  {
    OutcomesCompose(before, mid, after, a, b, maxrow, err);
  }

  /** Adds the result for left[ls..le] and reports an overflow as the overflow of the whole join. */
  lemma GroupDone(node: JoinNode, left: seq<Row>, right: seq<Row>, ls: nat, le: nat,
                  before: seq<Row>, mid: seq<Row>, after: seq<Row>, maxrow: int, err: bool)
    requires ls <= le <= |left|
    requires Outcome(before, mid, Join(node, left[..ls], right), maxrow, false)
    requires Outcome(mid, after, Join(node, left[ls..le], right), maxrow, err)
    ensures !err ==> Outcome(before, after, Join(node, left[..le], right), maxrow, false)
    ensures err || le == |left| ==> Outcome(before, after, Join(node, left, right), maxrow, err)
  {
    var a, b, c := Join(node, left[..ls], right), Join(node, left[ls..le], right), Join(node, left[le..], right);
    JoinPrefix(node, left, right, ls, le);
    PartDone(before, mid, after, a, b, c, maxrow, err);
    if le == |left| {
      assert left[..le] == left;
    }
  }

  /** The walk stands at the left group [ls, le) and the right group [rs, re). */
  predicate StandsAt(node: JoinNode, left: seq<Row>, right: seq<Row>, ls: nat, le: nat, rs: nat, re: nat) {
    && node.Valid()
    && IsGroup(left, node.leftKeys, ls, le)
    && IsGroup(right, node.rightKeys, rs, re)
    && Behind(node, left, right, ls, rs)
  }

  lemma NullGroupsStep(node: JoinNode, left: seq<Row>, right: seq<Row>, ls: nat, le: nat, rs: nat, re: nat)
    requires StandsAt(node, left, right, ls, le, rs, re) && ls < |left| && rs < |right|
    requires CommonNull(node, left[ls], right[rs])
    ensures Join(node, left[ls..le], right) == PadAll(node, left[ls..le]) && Behind(node, left, right, le, re)
  {
    NullGroupsMatchNothing(node, left, right, ls, le, rs, re);
    JoinIsPadding(node, left[ls..le], right);
  }

  lemma EqualGroupsStep(node: JoinNode, left: seq<Row>, right: seq<Row>, ls: nat, le: nat, rs: nat, re: nat)
    requires StandsAt(node, left, right, ls, le, rs, re) && ls < |left| && rs < |right|
    requires KeysMatch(node, left[ls], right[rs])
    ensures Join(node, left[ls..le], right) == Join(node, left[ls..le], right[rs..re])
    ensures forall l, r | l in left[ls..le] && r in right[rs..re] :: KeysMatch(node, l, r)
    ensures Behind(node, left, right, le, re)
  {
    EqualGroups(node, left, right, ls, le, rs, re);
    JoinIsLocal(node, left[ls..le], right, rs, re);
  }

  lemma LeftBelowStep(node: JoinNode, left: seq<Row>, right: seq<Row>, ls: nat, le: nat, rs: nat, re: nat)
    requires StandsAt(node, left, right, ls, le, rs, re) && ls < |left|
    requires rs < |right| ==> CompareKeys(KeyOf(left[ls], node.leftKeys), KeyOf(right[rs], node.rightKeys)) < 0
    ensures Join(node, left[ls..le], right) == PadAll(node, left[ls..le])
  {
    if rs < |right| {
      LeftGroupIsBelow(node, left, right, ls, le, rs, re);
    }
    JoinIsPadding(node, left[ls..le], right);
  }

  /** The right side is exhausted: nothing on the left matches any more. */
  lemma RightIsExhausted(node: JoinNode, left: seq<Row>, right: seq<Row>, ls: nat)
    requires ls <= |left| && Behind(node, left, right, ls, |right|)
    ensures Join(node, left[ls..|left|], right) == PadAll(node, left[ls..|left|])
  {
    JoinIsPadding(node, left[ls..|left|], right);
  }

  /** Handles the two current groups and says which sides move on. */
  method JoinGroups(lrows: seq<Row>, rrows: seq<Row>, ls: nat, le: nat, rs: nat, re: nat,
                    res: ResultSet, node: JoinNode, maxrow: int)
    returns (err: bool, leftMoves: bool, rightMoves: bool)
    requires StandsAt(node, lrows, rrows, ls, le, rs, re) && ls < |lrows| && rs < |rrows|
    modifies res
    ensures leftMoves || rightMoves
    ensures leftMoves ==> Outcome(old(res.rows), res.rows, Join(node, lrows[ls..le], rrows), maxrow, err)
    ensures !leftMoves ==> !err && res.rows == old(res.rows)
    ensures Behind(node, lrows, rrows, if leftMoves then le else ls, if rightMoves then re else rs)
    ensures res.affected - old(res.affected) == |res.rows| - |old(res.rows)|
  {
    var lchunk, rchunk := lrows[ls..le], rrows[rs..re];
    var cmp, isNull := CompareGroups(node, lchunk[0], rchunk[0]);
    err := false;
    if cmp == 0 {
      leftMoves, rightMoves := true, true;
      if isNull {
        NullGroupsStep(node, lrows, rrows, ls, le, rs, re);
        err := ConcatLeftAndNil(lchunk, node, res, maxrow);
      } else {
        EqualGroupsStep(node, lrows, rrows, ls, le, rs, re);
        err := ConcatLeftAndRight(lchunk, rchunk, node, res, maxrow);
      }
    } else if cmp > 0 {
      leftMoves, rightMoves := false, true;
      RightGroupIsBelow(node, lrows, rrows, ls, le, rs, re);
    } else {
      leftMoves, rightMoves := true, false;
      LeftBelowStep(node, lrows, rrows, ls, le, rs, re);
      err := ConcatLeftAndNil(lchunk, node, res, maxrow);
    }
  }

  /** Left rows that are left when the right side is exhausted. */
  method PadRest(lrows: seq<Row>, ghost rrows: seq<Row>, ls: nat, res: ResultSet, node: JoinNode, maxrow: int,
                 ghost before: seq<Row>)
    returns (err: bool)
    requires ls <= |lrows| && Behind(node, lrows, rrows, ls, |rrows|)
    requires Outcome(before, res.rows, Join(node, lrows[..ls], rrows), maxrow, false)
    modifies res
    ensures Outcome(before, res.rows, Join(node, lrows, rrows), maxrow, err)
    ensures res.affected - old(res.affected) == |res.rows| - |old(res.rows)|
  {
    err := ConcatLeftAndNil(lrows[ls..|lrows|], node, res, maxrow);
    RightIsExhausted(node, lrows, rrows, ls);
    GroupDone(node, lrows, rrows, ls, |lrows|, before, old(res.rows), res.rows, maxrow, err);
  }

  method MergeSorted(lrows: seq<Row>, rrows: seq<Row>, res: ResultSet, node: JoinNode, maxrow: int) returns (err: bool)
    requires node.Valid() && Sorted(lrows, KeyLe(node.leftKeys)) && Sorted(rrows, KeyLe(node.rightKeys))
    modifies res
    ensures Outcome(old(res.rows), res.rows, Join(node, lrows, rrows), maxrow, err)
    ensures res.affected - old(res.affected) == |res.rows| - |old(res.rows)|
  {
    var ls, rs := 0, 0;
    var lchunk, le := FetchSameKeyRows(lrows, node.leftKeys, 0);
    var rchunk, re := FetchSameKeyRows(rrows, node.rightKeys, 0);
    while ls < |lrows|
      invariant StandsAt(node, lrows, rrows, ls, le, rs, re)
      invariant node.leftKeys == [] ==> le == |lrows| && re == |rrows|
      invariant Outcome(old(res.rows), res.rows, Join(node, lrows[..ls], rrows), maxrow, false)
      invariant res.affected - old(res.affected) == |res.rows| - |old(res.rows)|
      decreases |lrows| - ls + |rrows| - rs
    {
      if rs == |rrows| {
        err := PadRest(lrows, rrows, ls, res, node, maxrow, old(res.rows));
        return;
      }
      ghost var mid := res.rows;
      var leftMoves, rightMoves;
      err, leftMoves, rightMoves := JoinGroups(lrows, rrows, ls, le, rs, re, res, node, maxrow);
      if leftMoves {
        GroupDone(node, lrows, rrows, ls, le, old(res.rows), mid, res.rows, maxrow, err);
        if err {
          return;
        }
        ls := le;
        lchunk, le := FetchSameKeyRows(lrows, node.leftKeys, le);
      }
      if rightMoves {
        rs := re;
        rchunk, re := FetchSameKeyRows(rrows, node.rightKeys, re);
      }
    }
    assert lrows[..ls] == lrows;
    err := false;
  }
}
