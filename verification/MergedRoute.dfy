/** Routing of a pushed-down join: the slots that the WHERE clause picks, in both of its tables. */
module MergedRoute {
  import opened Prelude
  import opened Seqs
  import opened SqlExpr
  import opened Rewriting
  import opened HashMap
  import opened Router
  import opened Routing
  import Rows
  import opened Colocated

  // ----- The same slots are at the same positions ------------------------------------------------

  /** Two hash-sharded tables that were accepted for push-down. */
  ghost predicate Aligned(l: Partition, r: Partition, lconf: seq<PartitionConfig>, rconf: seq<PartitionConfig>) {
    BuiltFrom(l, lconf) && BuiltFrom(r, rconf) && SameRanges(lconf, rconf)
  }

  lemma SegmentOfSlot(p: Partition, conf: seq<PartitionConfig>, slot: int) returns (i: nat)
    requires BuiltFrom(p, conf) && GetSegment(p, slot).Ok?
    ensures i < |p.segments| && GetSegment(p, slot) == Ok(p.segments[i]) && Covers(p.segments[i], slot)
  {
    var seg := p.partitions[slot];
    assert seg in multiset(SegmentsOf(conf));
    assert seg in multiset(p.segments);
    i :| 0 <= i < |p.segments| && p.segments[i] == seg;
  }

  lemma SlotOfSegment(p: Partition, conf: seq<PartitionConfig>, slot: int, i: nat)
    requires BuiltFrom(p, conf) && i < |p.segments| && Covers(p.segments[i], slot) && 0 <= slot < p.slots
    ensures GetSegment(p, slot) == Ok(p.segments[i])
  {
    assert p.segments[i] in multiset(p.segments);
    assert p.segments[i] in multiset(SegmentsOf(conf));
  }

  /** A slot has its segment at the same position of both tables. */
  lemma SlotPosition(l: Partition, r: Partition, lconf: seq<PartitionConfig>, rconf: seq<PartitionConfig>, slot: int)
    returns (i: nat)
    requires Aligned(l, r, lconf, rconf) && GetSegment(l, slot).Ok?
    ensures i < |l.segments| == |r.segments|
    ensures GetSegment(l, slot) == Ok(l.segments[i]) && GetSegment(r, slot) == Ok(r.segments[i])
  {
    SameMap(l, r, lconf, rconf);
    i := SegmentOfSlot(l, lconf, slot);
    assert ShapeOf(l.segments[i]) == ShapeOf(r.segments[i]);
    SlotOfSegment(r, rconf, slot, i);
  }

  /** Some segments of a table, by their positions. */
  predicate StandAt(p: Partition, segs: seq<Segment>, pos: seq<nat>) {
    |segs| == |pos| && forall k | 0 <= k < |pos| :: pos[k] < |p.segments| && segs[k] == p.segments[pos[k]]
  }

  lemma StandsOnce(p: Partition, conf: seq<PartitionConfig>, segs: seq<Segment>, pos: seq<nat>, i: nat)
    requires BuiltFrom(p, conf) && StandAt(p, segs, pos) && i < |p.segments|
    ensures p.segments[i] in segs <==> i in pos
  {
    if p.segments[i] in segs {
      var k :| 0 <= k < |segs| && segs[k] == p.segments[i];
      SamePlace(p, conf, i, pos[k]);
    }
    if i in pos {
      var k :| 0 <= k < |pos| && pos[k] == i;
      assert segs[k] == p.segments[i];
    }
  }

  lemma SamePlace(p: Partition, conf: seq<PartitionConfig>, i: nat, j: nat)
    requires BuiltFrom(p, conf) && i < |p.segments| && j < |p.segments| && p.segments[i] == p.segments[j]
    ensures i == j
  {
    if i < j {
      EntriesDiffer(p, conf, i, j);
    } else if j < i {
      EntriesDiffer(p, conf, j, i);
    }
  }

  /** The positions are those of the slots, each once. */
  ghost predicate PositionsOf(p: Partition, indexes: seq<int>, pos: seq<nat>) {
    && Distinct(pos) && AllFound(p, indexes)
    && forall i | 0 <= i < |p.segments| :: i in pos <==> Hit(p, indexes, p.segments[i])
  }

  ghost predicate Hit(p: Partition, indexes: seq<int>, seg: Segment) {
    exists k :: 0 <= k < |indexes| && GetSegment(p, indexes[k]) == Ok(seg)
  }

  function Added(pos: seq<nat>, i: nat): (more: seq<nat>)
    ensures Distinct(pos) ==> Distinct(more)
  {
    if i in pos then pos else pos + [i]
  }

  lemma AlignNext(p: Partition, conf: seq<PartitionConfig>, indexes: seq<int>, pos: seq<nat>, i: nat)
    requires BuiltFrom(p, conf) && indexes != [] && i < |p.segments|
    requires var n := |indexes| - 1;
      && AllFound(p, indexes[..n]) && GetSegment(p, indexes[n]) == Ok(p.segments[i])
      && StandAt(p, Picked(p, indexes[..n]), pos)
    ensures AllFound(p, indexes) && StandAt(p, Picked(p, indexes), Added(pos, i))
  {
    var n := |indexes| - 1;
    StandsOnce(p, conf, Picked(p, indexes[..n]), pos, i);
    PickedNext(p, indexes, n);
    assert indexes[..n + 1] == indexes;
  }

  /** The segments of recorded slots are at the same positions of both tables, in the same order. */
  lemma {:induction false} PickedAlign(l: Partition, r: Partition, lconf: seq<PartitionConfig>,
                                       rconf: seq<PartitionConfig>, indexes: seq<int>)
    returns (pos: seq<nat>)
    requires Aligned(l, r, lconf, rconf) && AllFound(l, indexes)
    ensures AllFound(r, indexes) && Distinct(pos)
    ensures StandAt(l, Picked(l, indexes), pos) && StandAt(r, Picked(r, indexes), pos)
  {
    if indexes == [] {
      pos := [];
    } else {
      var n := |indexes| - 1;
      pos := PickedAlign(l, r, lconf, rconf, indexes[..n]);
      var i := SlotPosition(l, r, lconf, rconf, indexes[n]);
      AlignNext(l, lconf, indexes, pos, i);
      AlignNext(r, rconf, indexes, pos, i);
      pos := Added(pos, i);
    }
  }

  lemma PickedPositions(p: Partition, conf: seq<PartitionConfig>, indexes: seq<int>, pos: seq<nat>)
    requires BuiltFrom(p, conf) && AllFound(p, indexes) && Distinct(pos) && StandAt(p, Picked(p, indexes), pos)
    ensures PositionsOf(p, indexes, pos)
  {
    forall i | 0 <= i < |p.segments| ensures i in pos <==> Hit(p, indexes, p.segments[i]) {
      StandsOnce(p, conf, Picked(p, indexes), pos, i);
      PickedExactly(p, indexes, p.segments[i]);
    }
  }

  /** What a node asks of one table. */
  function Routed(p: Partition, indexes: seq<int>): seq<Segment>
    requires AllFound(p, indexes)
  {
    if indexes == [] then p.segments else Picked(p, indexes)
  }

  /** Both tables are asked at the same positions, which are on the same backends. */
  lemma RoutePositions(l: Partition, r: Partition, lconf: seq<PartitionConfig>, rconf: seq<PartitionConfig>,
                       indexes: seq<int>)
    returns (pos: seq<nat>)
    requires Aligned(l, r, lconf, rconf) && AllFound(l, indexes)
    ensures AllFound(r, indexes) && |l.segments| == |r.segments|
    ensures StandAt(l, Routed(l, indexes), pos) && StandAt(r, Routed(r, indexes), pos)
    ensures if indexes == [] then pos == seq(|l.segments|, k => k) else PositionsOf(l, indexes, pos)
    ensures forall k | 0 <= k < |pos| :: l.segments[pos[k]].backend == r.segments[pos[k]].backend
  {
    SameMap(l, r, lconf, rconf);
    if indexes == [] {
      pos := seq(|l.segments|, k => k);
    } else {
      pos := PickedAlign(l, r, lconf, rconf, indexes);
      PickedPositions(l, lconf, indexes, pos);
    }
    forall k | 0 <= k < |pos| ensures l.segments[pos[k]].backend == r.segments[pos[k]].backend {
      assert ShapeOf(l.segments[pos[k]]) == ShapeOf(r.segments[pos[k]]);
    }
  }

  ghost predicate HasBadLiteral(p: Partition, filter: ExprInfo) {
    exists k :: 0 <= k < |filter.vals| && GetIndex(p, filter.vals[k]).Err?
  }

  // ----- The node ------------------------------------------------------------------------------------

  /** A condition says that the shard key of one of the tables equals one of some literals with recorded slots. */
  ghost predicate Restricts(p: Partition, table: string, shardkey: string, info: ExprInfo, indexes: seq<int>) {
    Picks(p, table, shardkey, info, indexes) && info.cols[0].table == table
  }

  /** The plan node of two tables whose join was pushed down: the conditions in its query and the slots they pick. */
  class MergedNode {
    const l: Partition
    const r: Partition
    const ltable: string
    const rtable: string
    const lkey: string
    const rkey: string
    var wheres: seq<ExprInfo>
    var indexes: seq<int>

    constructor (l: Partition, r: Partition, ltable: string, rtable: string, lkey: string, rkey: string)
      ensures this.l == l && this.r == r && this.ltable == ltable && this.rtable == rtable
      ensures this.lkey == lkey && this.rkey == rkey && wheres == [] && indexes == [] && Valid()
    {
      this.l, this.r, this.ltable, this.rtable, this.lkey, this.rkey := l, r, ltable, rtable, lkey, rkey;
      wheres, indexes := [], [];
    }

    ghost predicate Valid()
      reads this
    {
      && (forall i | 0 <= i < |wheres| :: ValsAreExact(wheres[i]))
      && (indexes != [] ==> Restricted(l, r, ltable, rtable, lkey, rkey, wheres, indexes))
      && (forall k | 0 <= k < |indexes| :: IsSlot(l, indexes[k]) || IsSlot(r, indexes[k]))
    }

    /** The condition compares the shard key of the left table with literals. */
    predicate DecidesLeft(filter: ExprInfo)
      requires ValsAreExact(filter)
    {
      |filter.vals| > 0 && filter.cols[0].table == ltable && lkey != "" && NameMatch(Col(filter.cols[0]), ltable, lkey)
    }

    predicate DecidesRight(filter: ExprInfo)
      requires ValsAreExact(filter)
    {
      |filter.vals| > 0 && filter.cols[0].table == rtable && rkey != "" && NameMatch(Col(filter.cols[0]), rtable, rkey)
    }

    /** Adds a condition to the query, and the slots of its literals when it restricts the shard key of its table. */
    method PushFilter(filter: ExprInfo) returns (ok: bool)
      requires Valid() && ValsAreExact(filter)
      modifies this
      ensures ok ==> Valid() && wheres == old(wheres) + [filter]
      ensures ok ==>
        if DecidesLeft(filter) then Recorded(l, filter.vals, old(indexes), indexes)
        else if DecidesRight(filter) then Recorded(r, filter.vals, old(indexes), indexes)
        else indexes == old(indexes)
      ensures !ok <==> if DecidesLeft(filter) then HasBadLiteral(l, filter)
        else DecidesRight(filter) && HasBadLiteral(r, filter)
    {
      wheres := wheres + [filter];
      if DecidesLeft(filter) || DecidesRight(filter) {
        var p := if DecidesLeft(filter) then l else r;
        var slots := FetchIndexes(p, filter.vals, indexes);
        if slots.None? {
          return false;
        }
        SlotsRecorded(p, if DecidesLeft(filter) then ltable else rtable, if DecidesLeft(filter) then lkey else rkey,
                      filter, indexes, slots.value);
        indexes := slots.value;
        assert wheres[|wheres| - 1] == filter;
      } else if indexes != [] {
        ghost var i :| 0 <= i < |old(wheres)| &&
          RestrictsOne(l, r, ltable, rtable, lkey, rkey, old(wheres)[i], indexes);
        assert wheres[i] == old(wheres)[i];
      }
      ok := true;
    }

    /**
      The queries of the node: segment by segment of both tables, which stand at the same positions, are on the
      same backend and are those of the recorded slots. With no slot recorded they are all.
    */
    method CalcRoute(ghost lconf: seq<PartitionConfig>, ghost rconf: seq<PartitionConfig>,
                     ghost jump: nat -> Hasher)
      returns (queries: seq<(Segment, Segment)>, ghost pos: seq<nat>)
      requires Valid() && Router.Valid(l) && Router.Valid(r) && Aligned(l, r, lconf, rconf) && SameHashing(l, r, jump)
      ensures |queries| == |pos| && forall k | 0 <= k < |pos| ::
        && pos[k] < |l.segments| == |r.segments| && queries[k] == (l.segments[pos[k]], r.segments[pos[k]])
        && queries[k].0.backend == queries[k].1.backend
      ensures if indexes == [] then pos == seq(|l.segments|, k => k) else PositionsOf(l, indexes, pos)
    {
      SlotsAreFound(l, r, lconf, rconf, jump, indexes);
      pos := RoutePositions(l, r, lconf, rconf, indexes);
      var lsegs := GetSegments(l, indexes);
      var rsegs := GetSegments(r, indexes);
      queries := BuildQueries(lsegs.value, rsegs.value);
    }
  }

  /** One query for each segment of the first table, with the segment of the other one at its index. */
  method BuildQueries(lsegs: seq<Segment>, rsegs: seq<Segment>) returns (queries: seq<(Segment, Segment)>)
    requires |lsegs| == |rsegs|
    ensures |queries| == |lsegs| && forall k | 0 <= k < |lsegs| :: queries[k] == (lsegs[k], rsegs[k])
  {
    queries := [];
    for i := 0 to |lsegs|
      invariant |queries| == i && forall k | 0 <= k < i :: queries[k] == (lsegs[k], rsegs[k])
    {
      queries := queries + [(lsegs[i], rsegs[i])];
    }
  }

  ghost predicate RestrictsOne(l: Partition, r: Partition, ltable: string, rtable: string, lkey: string,
                               rkey: string, info: ExprInfo, indexes: seq<int>) {
    Restricts(l, ltable, lkey, info, indexes) || Restricts(r, rtable, rkey, info, indexes)
  }

  ghost predicate Restricted(l: Partition, r: Partition, ltable: string, rtable: string, lkey: string,
                             rkey: string, wheres: seq<ExprInfo>, indexes: seq<int>) {
    exists i :: 0 <= i < |wheres| && RestrictsOne(l, r, ltable, rtable, lkey, rkey, wheres[i], indexes)
  }

  lemma SlotsRecorded(p: Partition, table: string, shardkey: string, info: ExprInfo, before: seq<int>,
                      indexes: seq<int>)
    requires info.vals != [] && ValsAreExact(info) && NameMatch(Col(info.cols[0]), table, shardkey)
    requires info.cols[0].table == table && Recorded(p, info.vals, before, indexes)
    ensures Restricts(p, table, shardkey, info, indexes) && before <= indexes
    ensures forall k | |before| <= k < |indexes| :: IsSlot(p, indexes[k])
  {
    forall i | 0 <= i < |info.vals| ensures Indexed(p, info.vals[i], indexes) {
      assert GetIndex(p, info.vals[i]) == Ok(indexes[|before| + i]);
    }
    forall k | |before| <= k < |indexes| ensures IsSlot(p, indexes[k]) {
      assert GetIndex(p, info.vals[k - |before|]) == Ok(indexes[|before| + (k - |before|)]);
    }
  }

  lemma SlotsAreFound(l: Partition, r: Partition, lconf: seq<PartitionConfig>, rconf: seq<PartitionConfig>,
                      jump: nat -> Hasher, indexes: seq<int>)
    requires Router.Valid(l) && Aligned(l, r, lconf, rconf) && SameHashing(l, r, jump)
    requires forall k | 0 <= k < |indexes| :: IsSlot(l, indexes[k]) || IsSlot(r, indexes[k])
    ensures AllFound(l, indexes)
  {
    SameMap(l, r, lconf, rconf);
    forall k | 0 <= k < |indexes| ensures GetSegment(l, indexes[k]).Ok? {
      var p := if IsSlot(l, indexes[k]) then l else r;
      var v: SqlVal :| GetIndex(p, v) == Ok(indexes[k]);
      assert GetIndex(l, v) == GetIndex(r, v);
      IndexHasSegment(l, v);
    }
  }

  // ----- No row of the join is missed ------------------------------------------------------------------

  /** The rows that the queries at some positions return. */
  function AnswersAt(q: Query, t: Pair, pos: seq<nat>): seq<Rows.Row>
    requires forall k | 0 <= k < |pos| :: pos[k] < |t.ls| && pos[k] < |t.rs|
  {
    Flatten(seq(|pos|, k requires 0 <= k < |pos| => Answer(q, t.ls[pos[k]], t.rs[pos[k]])))
  }

  function Select<A>(ss: seq<seq<A>>, pos: seq<nat>): seq<seq<A>>
    requires forall k | 0 <= k < |pos| :: pos[k] < |ss|
  {
    seq(|pos|, k requires 0 <= k < |pos| => ss[pos[k]])
  }

  /** All lists but those at some positions are empty. */
  ghost predicate EmptyBut<A>(ss: seq<seq<A>>, pos: seq<nat>) {
    forall i: nat | i < |ss| :: i in pos || ss[i] == []
  }

  /** Leaving out empty lists, and taking the others in any order, keeps the elements. */
  lemma {:induction false} SelectAll<A>(ss: seq<seq<A>>, pos: seq<nat>)
    requires Distinct(pos) && (forall k | 0 <= k < |pos| :: pos[k] < |ss|) && EmptyBut(ss, pos)
    ensures multiset(Flatten(Select(ss, pos))) == multiset(Flatten(ss))
    decreases |pos|
  {
    if pos == [] {
      FlattenNothing(ss);
    } else {
      var n := |pos| - 1;
      var rest := ss[pos[n] := []];
      EmptyRest(ss, pos);
      SelectAll(rest, pos[..n]);
      SelectRest(ss, pos);
      PutBack(ss, pos[n]);
    }
  }

  lemma EmptyRest<A>(ss: seq<seq<A>>, pos: seq<nat>)
    requires pos != [] && pos[|pos| - 1] < |ss| && EmptyBut(ss, pos)
    ensures EmptyBut(ss[pos[|pos| - 1] := []], pos[..|pos| - 1])
  {
    var n := |pos| - 1;
    forall i: nat | i < |ss| ensures i in pos[..n] || ss[pos[n] := []][i] == [] {
      if i !in pos[..n] {
        IsLast(pos, i);
      }
    }
  }

  lemma PutBack<A>(ss: seq<seq<A>>, p: nat)
    requires p < |ss|
    ensures multiset(Flatten(ss)) == multiset(Flatten(ss[p := []])) + multiset(ss[p])
  {
    var rest := ss[p := []];
    FlattenGrows(rest, p, ss[p]);
    assert rest[p] + ss[p] == ss[p];
    assert rest[p := ss[p]] == ss;
  }

  lemma IsLast(pos: seq<nat>, i: nat)
    requires pos != [] && i !in pos[..|pos| - 1]
    ensures i in pos ==> i == pos[|pos| - 1]
  {
    assert pos == pos[..|pos| - 1] + [pos[|pos| - 1]];
  }

  lemma SelectRest<A>(ss: seq<seq<A>>, pos: seq<nat>)
    requires pos != [] && Distinct(pos) && forall k | 0 <= k < |pos| :: pos[k] < |ss|
    ensures var n := |pos| - 1;
            Flatten(Select(ss, pos)) == Flatten(Select(ss[pos[n] := []], pos[..n])) + ss[pos[n]]
  {
    var n := |pos| - 1;
    assert Select(ss, pos)[..n] == Select(ss[pos[n] := []], pos[..n]);
  }

  /** The queries at some positions return the whole join when those at the others would return nothing. */
  lemma PickedJoin(q: Query, t: Pair, jump: nat -> Hasher, pos: seq<nat>)
    requires t.Valid(jump) && ImpliesKeys(q, t.lcol, t.rcol) && |t.ls| == |t.rs|
    requires Distinct(pos) && forall k | 0 <= k < |pos| :: pos[k] < |t.ls|
    requires forall i | 0 <= i < |t.ls| && i !in pos :: Answer(q, t.ls[i], t.rs[i]) == []
    ensures multiset(AnswersAt(q, t, pos)) == multiset(Answer(q, Flatten(t.ls), Flatten(t.rs)))
  {
    var each := AnswerEach(q, t.ls, t.rs);
    PushedDownJoin(q, t, jump);
    SelectAll(each, pos);
    assert Select(each, pos) == seq(|pos|, k requires 0 <= k < |pos| => Answer(q, t.ls[pos[k]], t.rs[pos[k]]));
  }

  predicate EqualsOne(v: Rows.Value, vals: seq<SqlVal>) {
    v.Cell? && exists k :: 0 <= k < |vals| && vals[k].rank == v.rank
  }

  /** The value of a column of the left or the right row; the right row may be missing. */
  function KeyIn(left: bool, col: nat, x: Rows.Row, y: Option<Rows.Row>): Rows.Value {
    if left then Rows.At(x, col) else if y.Some? then Rows.At(y.value, col) else Rows.Null
  }

  /** Every row of the result has one of the literals in the column. */
  ghost predicate Demands(q: Query, left: bool, col: nat, vals: seq<SqlVal>) {
    forall x, y | q.emit(x, y) != [] :: EqualsOne(KeyIn(left, col, x, y), vals)
  }

  /** A row with a recorded literal in its key column is stored at the position of a recorded slot. */
  lemma StoredAtSlot(p: Partition, hashed: Partition, keys: iset<SqlVal>, row: Rows.Row, col: nat, i: nat,
                     vals: seq<SqlVal>, indexes: seq<int>)
    requires Congruent(hashed, keys) && (forall v: SqlVal :: GetIndex(p, v) == GetIndex(hashed, v))
    requires StoredIn(p, keys, row, col, i) && EqualsOne(Rows.At(row, col), vals)
    requires forall k | 0 <= k < |vals| :: vals[k] in keys && Indexed(p, vals[k], indexes)
    ensures i < |p.segments| && Hit(p, indexes, p.segments[i])
  {
    var key :| StoredUnder(p, keys, row, col, i, key);
    var k :| 0 <= k < |vals| && vals[k].rank == Rows.At(row, col).rank;
    assert Indexed(p, vals[k], indexes);
    var j :| 0 <= j < |indexes| && GetIndex(p, vals[k]) == Ok(indexes[j]);
    assert GetIndex(hashed, key) == GetIndex(hashed, vals[k]);
  }

  lemma HitInBoth(l: Partition, r: Partition, lconf: seq<PartitionConfig>, rconf: seq<PartitionConfig>,
                  indexes: seq<int>, i: nat)
    requires Aligned(l, r, lconf, rconf) && AllFound(l, indexes) && i < |l.segments| == |r.segments|
    requires Hit(r, indexes, r.segments[i])
    ensures Hit(l, indexes, l.segments[i])
  {
    var k :| 0 <= k < |indexes| && GetSegment(r, indexes[k]) == Ok(r.segments[i]);
    var j := SlotPosition(l, r, lconf, rconf, indexes[k]);
    SamePlace(r, rconf, i, j);
  }

  /** The rows at other positions add nothing to the result. */
  lemma NothingElsewhere(q: Query, t: Pair, jump: nat -> Hasher, indexes: seq<int>, pos: seq<nat>, left: bool,
                         vals: seq<SqlVal>, i: nat, x: Rows.Row, y: Option<Rows.Row>)
    requires t.Valid(jump) && PositionsOf(t.l, indexes, pos) && i < |t.ls| == |t.rs| && i !in pos
    requires Demands(q, left, if left then t.lcol else t.rcol, vals)
    requires forall k | 0 <= k < |vals| ::
      vals[k] in t.keys && Indexed(if left then t.l else t.r, vals[k], indexes)
    requires x in t.ls[i] && (y.Some? ==> y.value in t.rs[i])
    ensures q.emit(x, y) == []
  {
    SameMap(t.l, t.r, t.lconf, t.rconf);
    if q.emit(x, y) != [] {
      if left {
        StoredAtSlot(t.l, t.l, t.keys, x, t.lcol, i, vals, indexes);
      } else {
        StoredAtSlot(t.r, t.l, t.keys, y.value, t.rcol, i, vals, indexes);
        HitInBoth(t.l, t.r, t.lconf, t.rconf, indexes, i);
      }
      assert false;
    }
  }

  lemma NoAnswerElsewhere(q: Query, t: Pair, jump: nat -> Hasher, indexes: seq<int>, pos: seq<nat>, left: bool,
                          vals: seq<SqlVal>, i: nat)
    requires t.Valid(jump) && PositionsOf(t.l, indexes, pos) && i < |t.ls| == |t.rs| && i !in pos
    requires Demands(q, left, if left then t.lcol else t.rcol, vals)
    requires forall k | 0 <= k < |vals| ::
      vals[k] in t.keys && Indexed(if left then t.l else t.r, vals[k], indexes)
    ensures Answer(q, t.ls[i], t.rs[i]) == []
  {
    forall x | x in t.ls[i] ensures AnswerOne(q, x, t.rs[i]) == [] {
      forall y: Option<Rows.Row> | y.Some? ==> y.value in t.rs[i] ensures q.emit(x, y) == [] {
        NothingElsewhere(q, t, jump, indexes, pos, left, vals, i, x, y);
      }
      NoAnswer(q, x, t.rs[i]);
    }
    FlatMapNothing(x => AnswerOne(q, x, t.rs[i]), t.ls[i]);
  }

  lemma NoAnswer(q: Query, x: Rows.Row, ys: seq<Rows.Row>)
    requires forall y: Option<Rows.Row> | y.Some? ==> y.value in ys :: q.emit(x, y) == []
    ensures AnswerOne(q, x, ys) == []
  {
    var partners := Partnered(q, x, ys);
    forall y | y in partners ensures q.emit(x, Some(y)) == [] {
      FlatMapMember(y => if q.on(x, y) then [y] else [], ys, y);
    }
    FlatMapNothing(y => q.emit(x, Some(y)), partners);
  }

  // ----- From the WHERE clause ----------------------------------------------------------------------------

  /** `view` shows an expression the shard keys of both rows under their names; a missing row shows NULL. */
  ghost predicate ShowsKeys(view: (Rows.Row, Option<Rows.Row>) -> Env, left: bool, table: string, key: string,
                            col: nat) {
    forall x, y, name: ColName | name.table == table && Lower(name.name) == Lower(key) ::
      ColValue(name, view(x, y)) == ScalarOf(KeyIn(left, col, x, y))
  }

  lemma FilterEquals(info: ExprInfo, env: Env, v: Rows.Value)
    requires info.vals != [] && ValsAreExact(info) && Eval(info.expr, env) == True
    requires ColValue(info.cols[0], env) == ScalarOf(v)
    ensures EqualsOne(v, info.vals)
  {
    if info.expr == Cmp(In, Col(info.cols[0]), ValTuple(Lits(info.vals))) {
      var lits := Lits(info.vals);
      InIsSomeEqual(ScalarOf(v), lits, env);
      var i :| 0 <= i < |lits| && SqlEq(ScalarOf(v), EvalScalar(lits[i], env)) == True;
      assert lits[i] == Lit(info.vals[i]);
    } else {
      assert SqlEq(ScalarOf(v), Value(info.vals[0].rank)) == True;
    }
  }

  lemma FilterDemands(q: Query, view: (Rows.Row, Option<Rows.Row>) -> Env, wheres: seq<ExprInfo>, i: nat,
                      left: bool, table: string, key: string, col: nat)
    requires forall x, y | q.emit(x, y) != [] :: EvalInfos(wheres, view(x, y)) == True
    requires i < |wheres| && wheres[i].vals != [] && ValsAreExact(wheres[i])
    requires wheres[i].cols[0].table == table && NameMatch(Col(wheres[i].cols[0]), table, key)
    requires ShowsKeys(view, left, table, key, col)
    ensures Demands(q, left, col, wheres[i].vals)
  {
    forall x, y | q.emit(x, y) != [] ensures EqualsOne(KeyIn(left, col, x, y), wheres[i].vals) {
      InfosAllTrue(wheres, view(x, y));
      FilterEquals(wheres[i], view(x, y), KeyIn(left, col, x, y));
    }
  }

  /** The names under which a node knows the shard keys of its tables. */
  datatype Names = Names(ltable: string, rtable: string, lkey: string, rkey: string)

  /** The query lets through what satisfies the conditions of the node, on rows whose keys `view` shows. */
  ghost predicate Filters(q: Query, t: Pair, names: Names, wheres: seq<ExprInfo>,
                          view: (Rows.Row, Option<Rows.Row>) -> Env) {
    && (forall x, y | q.emit(x, y) != [] :: EvalInfos(wheres, view(x, y)) == True)
    && ShowsKeys(view, true, names.ltable, names.lkey, t.lcol)
    && ShowsKeys(view, false, names.rtable, names.rkey, t.rcol)
    && (forall i, k | 0 <= i < |wheres| && 0 <= k < |wheres[i].vals| :: wheres[i].vals[k] in t.keys)
  }

  lemma OneSideDecides(q: Query, t: Pair, jump: nat -> Hasher, names: Names, wheres: seq<ExprInfo>,
                       view: (Rows.Row, Option<Rows.Row>) -> Env, indexes: seq<int>, pos: seq<nat>, i: nat, left: bool)
    requires t.Valid(jump) && |t.ls| == |t.rs| && Filters(q, t, names, wheres, view)
    requires PositionsOf(t.l, indexes, pos) && i < |wheres|
    requires if left then Restricts(t.l, names.ltable, names.lkey, wheres[i], indexes)
             else Restricts(t.r, names.rtable, names.rkey, wheres[i], indexes)
    ensures forall j | 0 <= j < |t.ls| && j !in pos :: Answer(q, t.ls[j], t.rs[j]) == []
  {
    if left {
      FilterDemands(q, view, wheres, i, true, names.ltable, names.lkey, t.lcol);
    } else {
      FilterDemands(q, view, wheres, i, false, names.rtable, names.rkey, t.rcol);
    }
    forall j | 0 <= j < |t.ls| && j !in pos ensures Answer(q, t.ls[j], t.rs[j]) == [] {
      NoAnswerElsewhere(q, t, jump, indexes, pos, left, wheres[i].vals, j);
    }
  }

  /**
    The queries of a merged node return all rows of the join, inner or left, whichever table's key decided:
    the slots are recorded by a condition of the WHERE clause on the key of one table and used for both.
  */
  lemma MergedRouteIsExact(q: Query, t: Pair, jump: nat -> Hasher, names: Names, wheres: seq<ExprInfo>,
                           view: (Rows.Row, Option<Rows.Row>) -> Env, indexes: seq<int>, pos: seq<nat>)
    requires t.Valid(jump) && ImpliesKeys(q, t.lcol, t.rcol) && Filters(q, t, names, wheres, view)
    requires indexes != [] ==>
      Restricted(t.l, t.r, names.ltable, names.rtable, names.lkey, names.rkey, wheres, indexes)
    requires if indexes == [] then pos == seq(|t.l.segments|, k => k) else PositionsOf(t.l, indexes, pos)
    requires forall k | 0 <= k < |pos| :: pos[k] < |t.l.segments|
    ensures |t.ls| == |t.rs| == |t.l.segments|
    ensures multiset(AnswersAt(q, t, pos)) == multiset(Answer(q, Flatten(t.ls), Flatten(t.rs)))
  {
    SameMap(t.l, t.r, t.lconf, t.rconf);
    if indexes == [] {
      forall i | 0 <= i < |t.ls| ensures i in pos {
        assert pos[i] == i;
      }
    } else {
      var i :| 0 <= i < |wheres| &&
        RestrictsOne(t.l, t.r, names.ltable, names.rtable, names.lkey, names.rkey, wheres[i], indexes);
      OneSideDecides(q, t, jump, names, wheres, view, indexes, pos, i,
                     Restricts(t.l, names.ltable, names.lkey, wheres[i], indexes));
    }
    PickedJoin(q, t, jump, pos);
  }

  method PushFilters(node: MergedNode, filters: seq<ExprInfo>) returns (ok: bool)
    requires node.wheres == [] && node.indexes == [] && forall i | 0 <= i < |filters| :: ValsAreExact(filters[i])
    modifies node
    ensures ok ==> node.Valid() && node.wheres == filters
    ensures !ok ==> exists i ::
      0 <= i < |filters| && (HasBadLiteral(node.l, filters[i]) || HasBadLiteral(node.r, filters[i]))
  {
    for i := 0 to |filters|
      invariant node.Valid() && node.wheres == filters[..i]
    {
      ok := node.PushFilter(filters[i]);
      if !ok {
        return;
      }
      assert filters[..i + 1] == filters[..i] + [filters[i]];
    }
    assert filters[..|filters|] == filters;
    ok := true;
  }

  /**
    Pushes the conditions of a WHERE clause to a merged node and routes it: its queries return, position by
    position, all rows of the join.
  */
  method RouteJoin(node: MergedNode, filters: seq<ExprInfo>, ghost q: Query, ghost t: Pair, ghost jump: nat -> Hasher,
                   ghost view: (Rows.Row, Option<Rows.Row>) -> Env)
    returns (queries: Option<seq<(Segment, Segment)>>, ghost pos: seq<nat>)
    requires node.wheres == [] && node.indexes == [] && node.l == t.l && node.r == t.r
    requires Router.Valid(t.l) && Router.Valid(t.r) && t.Valid(jump) && ImpliesKeys(q, t.lcol, t.rcol)
    requires forall i | 0 <= i < |filters| :: ValsAreExact(filters[i])
    requires Filters(q, t, Names(node.ltable, node.rtable, node.lkey, node.rkey), filters, view)
    modifies node
    ensures queries.None? ==> exists i ::
      0 <= i < |filters| && (HasBadLiteral(t.l, filters[i]) || HasBadLiteral(t.r, filters[i]))
    ensures queries.Some? ==> |t.ls| == |t.rs| == |t.l.segments| == |t.r.segments| && |queries.value| == |pos|
    ensures queries.Some? ==> forall k | 0 <= k < |pos| ::
      pos[k] < |t.ls| && queries.value[k] == (t.l.segments[pos[k]], t.r.segments[pos[k]])
    ensures queries.Some? ==> multiset(AnswersAt(q, t, pos)) == multiset(Answer(q, Flatten(t.ls), Flatten(t.rs)))
  {
    var ok := PushFilters(node, filters);
    if !ok {
      return None, [];
    }
    var qs;
    qs, pos := node.CalcRoute(t.lconf, t.rconf, jump);
    SameMap(t.l, t.r, t.lconf, t.rconf);
    MergedRouteIsExact(q, t, jump, Names(node.ltable, node.rtable, node.lkey, node.rkey), filters, view, node.indexes,
                       pos);
    queries := Some(qs);
  }
}
