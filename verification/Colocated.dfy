/** Joining two hash-sharded tables partition by partition. */
module Colocated {
  import opened Prelude
  import opened Seqs
  import opened Sorting
  import opened SqlExpr
  import opened Rewriting
  import opened HashMap
  import opened Router
  import opened Routing
  import Rows
  import opened JoinSpec

  datatype TableInfo = TableInfo(shardKey: string, partitions: seq<PartitionConfig>)

  /** The configurations agree on ranges and backends, entry by entry. */
  predicate SameRanges(l: seq<PartitionConfig>, r: seq<PartitionConfig>) {
    |l| == |r| && forall i | 0 <= i < |l| :: l[i].segment == r[i].segment && l[i].backend == r[i].backend
  }

  predicate SameShard(lt: TableInfo, rt: TableInfo, lcn: string, rcn: string) {
    && lt.shardKey != "" && Lower(lcn) == Lower(lt.shardKey)
    && rt.shardKey != "" && Lower(rcn) == Lower(rt.shardKey)
    && SameRanges(lt.partitions, rt.partitions)
  }

  /** Whether a join on these two columns can be pushed down. */
  method IsSameShard(lt: TableInfo, rt: TableInfo, lcn: string, rcn: string) returns (same: bool)
    ensures same <==> SameShard(lt, rt, lcn, rcn)
  {
    if lt.shardKey == "" || Lower(lcn) != Lower(lt.shardKey) {
      return false;
    }
    var ltp := lt.partitions;
    if rt.shardKey == "" || Lower(rcn) != Lower(rt.shardKey) {
      return false;
    }
    var rtp := rt.partitions;
    if |ltp| != |rtp| {
      return false;
    }
    for i := 0 to |ltp|
      invariant forall k | 0 <= k < i :: ltp[k].segment == rtp[k].segment && ltp[k].backend == rtp[k].backend
    {
      if ltp[i].segment != rtp[i].segment || ltp[i].backend != rtp[i].backend {
        return false;
      }
    }
    return true;
  }

  /** What building the map of a hash-sharded table establishes. */
  ghost predicate BuiltFrom(p: Partition, conf: seq<PartitionConfig>) {
    && p.HashPart? && Accepts(conf, p.slots)
    && MapsSlots(p.partitions, SegmentsOf(conf)) && |p.partitions| == p.slots
    && SortOf(p.segments, SegmentsOf(conf), SegmentLe())
  }

  method BuildPartition(conf: seq<PartitionConfig>, slots: nat, hash: Hasher) returns (r: Option<Partition>)
    ensures r.Some? <==> Accepts(conf, slots)
    ensures r.Some? ==> BuiltFrom(r.value, conf) && r.value.slots == slots && r.value.hash == hash
  {
    var h := new Hash(slots, conf);
    var ok := h.Build();
    r := if ok then Some(HashPart(slots, hash, h.partitions, h.segments)) else None;
  }

  lemma SegmentsDiffer(conf: seq<PartitionConfig>)
    requires AllParse(conf)
    ensures Distinct(SegmentsOf(conf))
  {
    var segs := SegmentsOf(conf);
    forall j, k | 0 <= j < k < |segs| ensures segs[j] != segs[k] {
      assert segs[j].id == j && segs[k].id == k;
    }
  }

  /** Every segment of the map is that of some entry of the configuration. */
  lemma SegmentOfEntry(p: Partition, conf: seq<PartitionConfig>, j: nat) returns (a: nat)
    requires BuiltFrom(p, conf) && j < |p.segments|
    ensures a < |conf| && p.segments[j] == SegmentsOf(conf)[a] == SegmentAt(conf, a)
    ensures p.segments[j].start < p.segments[j].end && p.segments[j].id == a
  {
    var segs := SegmentsOf(conf);
    assert p.segments[j] in multiset(p.segments);
    assert p.segments[j] in multiset(segs);
    a :| 0 <= a < |segs| && segs[a] == p.segments[j];
  }

  lemma EntriesDiffer(p: Partition, conf: seq<PartitionConfig>, j: nat, k: nat)
    requires BuiltFrom(p, conf) && j < k < |p.segments|
    ensures p.segments[j] != p.segments[k]
  {
    SegmentsDiffer(conf);
    PermutationIsDistinct(SegmentsOf(conf), p.segments);
  }

  lemma SegmentsApart(conf: seq<PartitionConfig>, slots: nat, a: nat, b: nat)
    requires Accepts(conf, slots) && a < |conf| && b < |conf| && a != b
    ensures var x, y := SegmentsOf(conf)[a], SegmentsOf(conf)[b]; x.end <= y.start || y.end <= x.start
  {
  }

  lemma StartsInOrder(segs: seq<Segment>, j: nat, k: nat)
    requires Sorted(segs, SegmentLe()) && j < k < |segs|
    ensures segs[j].start <= segs[k].start
  {
    assert SegmentLe()(segs[j], segs[k]);
  }

  /** The sorted segments are disjoint, not empty and carry different identities. */
  lemma SortedSegments(p: Partition, conf: seq<PartitionConfig>, j: nat, k: nat)
    requires BuiltFrom(p, conf) && j < k < |p.segments|
    ensures p.segments[j].start < p.segments[j].end <= p.segments[k].start < p.segments[k].end
    ensures p.segments[j].id != p.segments[k].id
  {
    EntriesDiffer(p, conf, j, k);
    var a := SegmentOfEntry(p, conf, j);
    var b := SegmentOfEntry(p, conf, k);
    SegmentsApart(conf, p.slots, a, b);
    StartsInOrder(p.segments, j, k);
  }

  /** A built map whose ends stay within the slots is all that routing needs. */
  lemma BuiltIsValid(p: Partition, conf: seq<PartitionConfig>)
    requires BuiltFrom(p, conf)
    requires IntoSlots(p.hash, p.slots)
    requires forall k | 0 <= k < |conf| :: SegmentsOf(conf)[k].end <= p.slots
    ensures Router.Valid(p)
  {
    var segs := SegmentsOf(conf);
    forall j, k | 0 <= j < k < |p.segments| ensures p.segments[j].id != p.segments[k].id {
      SortedSegments(p, conf, j, k);
    }
    forall k | 0 <= k < |segs| ensures segs[k].start < segs[k].end {
      assert segs[k] == SegmentAt(conf, k);
    }
    CoversAllSlots(p.partitions, segs, p.slots);
    forall i | 0 <= i < p.slots ensures i in p.partitions && p.partitions[i] in p.segments {
      assert i in p.partitions;
      assert p.partitions[i] in multiset(segs);
    }
  }

  // ----- The same ranges in the same order ----------------------------------------------------

  type Shape = (nat, nat, string)

  function ShapeOf(seg: Segment): Shape { (seg.start, seg.end, seg.backend) }

  function Shapes(segs: seq<Segment>): seq<Shape> {
    FlatMap((seg: Segment) => [ShapeOf(seg)], segs)
  }

  lemma {:induction false} ShapeAt(segs: seq<Segment>)
    ensures |Shapes(segs)| == |segs| && forall i | 0 <= i < |segs| :: Shapes(segs)[i] == ShapeOf(segs[i])
  {
    if segs != [] {
      ShapeAt(segs[..|segs| - 1]);
    }
  }

  lemma SameRangesSameShapes(l: seq<PartitionConfig>, r: seq<PartitionConfig>)
    requires SameRanges(l, r) && AllParse(l) && AllParse(r)
    ensures Shapes(SegmentsOf(l)) == Shapes(SegmentsOf(r))
  {
    ShapeAt(SegmentsOf(l));
    ShapeAt(SegmentsOf(r));
    forall i | 0 <= i < |l| ensures ShapeOf(SegmentsOf(l)[i]) == ShapeOf(SegmentsOf(r)[i]) {
      assert RangeOf(l[i]) == RangeOf(r[i]);
    }
  }

  lemma {:induction false} SameShapesSameWidth(l: seq<Segment>, r: seq<Segment>)
    requires Shapes(l) == Shapes(r)
    ensures TotalWidth(l) == TotalWidth(r)
  {
    ShapeAt(l);
    ShapeAt(r);
    if l != [] {
      var n := |l| - 1;
      assert ShapeOf(l[n]) == Shapes(l)[n] == ShapeOf(r[n]);
      assert Shapes(l[..n]) == Shapes(l)[..n] && Shapes(r[..n]) == Shapes(r)[..n];
      SameShapesSameWidth(l[..n], r[..n]);
    }
  }

  predicate Rising(s: seq<Shape>) {
    forall j, k | 0 <= j < k < |s| :: s[j].0 < s[k].0
  }

  lemma SameLast(a: seq<Shape>, b: seq<Shape>)
    requires multiset(a) == multiset(b) && Rising(a) && Rising(b) && a != [] && b != []
    ensures a[|a| - 1] == b[|b| - 1]
  {
    var x, y := a[|a| - 1], b[|b| - 1];
    assert x in multiset(b) && y in multiset(a);
    var i :| 0 <= i < |b| && b[i] == x;
    var j :| 0 <= j < |a| && a[j] == y;
    assert x.0 <= y.0 <= x.0;
  }

  lemma DropLast(s: seq<Shape>)
    requires s != []
    ensures multiset(s[..|s| - 1]) == multiset(s) - multiset{s[|s| - 1]}
  {
    assert s == s[..|s| - 1] + [s[|s| - 1]];
  }

  /** There is one way to put distinct starts in order. */
  lemma {:induction false} OneOrder(a: seq<Shape>, b: seq<Shape>)
    requires multiset(a) == multiset(b) && Rising(a) && Rising(b)
    ensures a == b
  {
    assert |a| == |multiset(a)| == |b|;
    if a != [] {
      var n := |a| - 1;
      SameLast(a, b);
      DropLast(a);
      DropLast(b);
      OneOrder(a[..n], b[..n]);
      assert a == a[..n] + [a[n]] && b == b[..n] + [b[n]];
    }
  }

  lemma BuiltIsRising(p: Partition, conf: seq<PartitionConfig>)
    requires BuiltFrom(p, conf)
    ensures Rising(Shapes(p.segments)) && multiset(Shapes(p.segments)) == multiset(Shapes(SegmentsOf(conf)))
  {
    var shape := (seg: Segment) => [ShapeOf(seg)];
    FlatMapPermutes(shape, shape, p.segments, SegmentsOf(conf));
    ShapeAt(p.segments);
    forall j, k | 0 <= j < k < |p.segments| ensures p.segments[j].start < p.segments[k].start {
      SortedSegments(p, conf, j, k);
    }
  }

  /**
    Maps built from agreeing configurations have the same slots and, position by position, the same ranges and
    backends.
  */
  lemma SameMap(l: Partition, r: Partition, lconf: seq<PartitionConfig>, rconf: seq<PartitionConfig>)
    requires BuiltFrom(l, lconf) && BuiltFrom(r, rconf) && SameRanges(lconf, rconf)
    ensures l.slots == r.slots && |l.segments| == |r.segments|
    ensures forall i | 0 <= i < |l.segments| :: ShapeOf(l.segments[i]) == ShapeOf(r.segments[i])
  {
    SameRangesSameShapes(lconf, rconf);
    SameShapesSameWidth(SegmentsOf(lconf), SegmentsOf(rconf));
    BuiltIsRising(l, lconf);
    BuiltIsRising(r, rconf);
    OneOrder(Shapes(l.segments), Shapes(r.segments));
    ShapeAt(l.segments);
    ShapeAt(r.segments);
  }

  // ----- Equal keys meet ------------------------------------------------------------------------

  /** Both tables hash with the same family of functions, one for each number of slots. */
  ghost predicate SameHashing(l: Partition, r: Partition, jump: nat -> Hasher) {
    l.HashPart? && r.HashPart? && l.hash == jump(l.slots) && r.hash == jump(r.slots)
  }

  /** The row was inserted into partition i under a literal equal to its key column. */
  ghost predicate StoredIn(p: Partition, keys: iset<SqlVal>, row: Rows.Row, col: nat, i: nat) {
    i < |p.segments| && (Rows.At(row, col).Cell? ==> exists key :: StoredUnder(p, keys, row, col, i, key))
  }

  ghost predicate StoredUnder(p: Partition, keys: iset<SqlVal>, row: Rows.Row, col: nat, i: nat, key: SqlVal) {
    && i < |p.segments| && Rows.At(row, col).Cell? && key in keys && key.rank == Rows.At(row, col).rank
    && HasOwner(p, key) && Owner(p, key) == p.segments[i]
  }

  lemma SamePosition(l: Partition, r: Partition, lconf: seq<PartitionConfig>, rconf: seq<PartitionConfig>,
                     jump: nat -> Hasher, keys: iset<SqlVal>, a: SqlVal, b: SqlVal, i: nat, j: nat)
    requires BuiltFrom(l, lconf) && BuiltFrom(r, rconf) && SameRanges(lconf, rconf)
    requires SameHashing(l, r, jump) && Congruent(l, keys) && a in keys && b in keys && a.rank == b.rank
    requires HasOwner(l, a) && i < |l.segments| && Owner(l, a) == l.segments[i]
    requires HasOwner(r, b) && j < |r.segments| && Owner(r, b) == r.segments[j]
    ensures i == j
  {
    SameMap(l, r, lconf, rconf);
    var slot := GetIndex(l, a).value;
    assert GetIndex(r, b) == GetIndex(l, b) == GetIndex(l, a);
    assert Covers(l.segments[i], slot) && Covers(r.segments[j], slot);
    assert Covers(l.segments[j], slot) by { assert ShapeOf(l.segments[j]) == ShapeOf(r.segments[j]); }
    if i < j {
      SortedSegments(l, lconf, i, j);
    } else if j < i {
      SortedSegments(l, lconf, j, i);
    }
  }

  // ----- The join of two row lists, for any ON condition ---------------------------------------

  /**
    A join as a backend runs it. `on` says on which pairs the ON condition is true, whatever it is made
    of; `emit` gives the result rows of a pair, or of a left row without partner when `left` is set: what
    the WHERE clause lets through, projected to the select list.
  */
  datatype Query = Query(on: (Rows.Row, Rows.Row) -> bool, left: bool,
                         emit: (Rows.Row, Option<Rows.Row>) -> seq<Rows.Row>)

  function Partnered(q: Query, x: Rows.Row, ys: seq<Rows.Row>): seq<Rows.Row> {
    FlatMap(y => if q.on(x, y) then [y] else [], ys)
  }

  function AnswerOne(q: Query, x: Rows.Row, ys: seq<Rows.Row>): seq<Rows.Row> {
    var partners := Partnered(q, x, ys);
    if partners == [] then if q.left then q.emit(x, None) else []
    else FlatMap(y => q.emit(x, Some(y)), partners)
  }

  function Answer(q: Query, xs: seq<Rows.Row>, ys: seq<Rows.Row>): seq<Rows.Row> {
    FlatMap(x => AnswerOne(q, x, ys), xs)
  }

  /** The condition implies that the two columns are equal in SQL. */
  ghost predicate ImpliesKeys(q: Query, lcol: nat, rcol: nat) {
    forall x, y | q.on(x, y) :: SqlHolds(Equal, Rows.At(x, lcol), Rows.At(y, rcol))
  }

  function ScalarOf(v: Rows.Value): Scalar { if v.Null? then Null else Value(v.rank) }

  /** `view` shows an expression the two key columns of a pair of rows under their names. */
  ghost predicate Shows(view: (Rows.Row, Rows.Row) -> Env, lname: ColName, rname: ColName, lcol: nat, rcol: nat) {
    forall x, y :: ColValue(lname, view(x, y)) == ScalarOf(Rows.At(x, lcol)) &&
      ColValue(rname, view(x, y)) == ScalarOf(Rows.At(y, rcol))
  }

  /** An ON clause implies the equality that is one of its conjuncts, whatever the others are. */
  lemma ConjunctImpliesKeys(q: Query, e: Expr, k: nat, view: (Rows.Row, Rows.Row) -> Env,
                            lname: ColName, rname: ColName, lcol: nat, rcol: nat)
    requires forall x, y :: q.on(x, y) <==> Eval(e, view(x, y)) == True
    requires k < |SplitAnd([], e)| && SkipParenthesis(SplitAnd([], e)[k]) == Cmp(Eq, Col(lname), Col(rname))
    requires Shows(view, lname, rname, lcol, rcol)
    ensures ImpliesKeys(q, lcol, rcol)
  {
    forall x, y | q.on(x, y) ensures SqlHolds(Equal, Rows.At(x, lcol), Rows.At(y, rcol)) {
      PieceFollows(e, k, Cmp(Eq, Col(lname), Col(rname)));
      assert Eval(Cmp(Eq, Col(lname), Col(rname)), view(x, y)) == True;
    }
  }

  /** The partitions of two tables that were accepted for push-down. */
  datatype Pair = Pair(l: Partition, r: Partition, lconf: seq<PartitionConfig>, rconf: seq<PartitionConfig>,
                       lcol: nat, rcol: nat, keys: iset<SqlVal>, ls: seq<seq<Rows.Row>>, rs: seq<seq<Rows.Row>>)
  {
    ghost predicate Valid(jump: nat -> Hasher) {
      && BuiltFrom(l, lconf) && BuiltFrom(r, rconf) && SameRanges(lconf, rconf)
      && SameHashing(l, r, jump) && Congruent(l, keys)
      && |ls| == |l.segments| && |rs| == |r.segments|
      && (forall i, row | 0 <= i < |ls| && row in ls[i] :: StoredIn(l, keys, row, lcol, i))
      && (forall i, row | 0 <= i < |rs| && row in rs[i] :: StoredIn(r, keys, row, rcol, i))
    }
  }

  /** Rows that match are in partitions at the same position. */
  lemma MatchesMeet(q: Query, t: Pair, jump: nat -> Hasher, i: nat, j: nat, x: Rows.Row, y: Rows.Row)
    requires t.Valid(jump) && ImpliesKeys(q, t.lcol, t.rcol)
    requires i < |t.ls| && j < |t.rs| && x in t.ls[i] && y in t.rs[j] && q.on(x, y)
    ensures i == j
  {
    assert SqlHolds(Equal, Rows.At(x, t.lcol), Rows.At(y, t.rcol));
    assert StoredIn(t.l, t.keys, x, t.lcol, i) && StoredIn(t.r, t.keys, y, t.rcol, j);
    var a :| StoredUnder(t.l, t.keys, x, t.lcol, i, a);
    var b :| StoredUnder(t.r, t.keys, y, t.rcol, j, b);
    SamePosition(t.l, t.r, t.lconf, t.rconf, jump, t.keys, a, b, i, j);
  }

  // ----- Joining partition by partition -------------------------------------------------------

  /** No row outside list i matches x. */
  ghost predicate OnlyIn(q: Query, x: Rows.Row, rs: seq<seq<Rows.Row>>, i: nat) {
    forall j, y | 0 <= j < |rs| && y in rs[j] && j != i :: !q.on(x, y)
  }

  lemma {:induction false} PartnersInOne(q: Query, x: Rows.Row, rs: seq<seq<Rows.Row>>, i: nat)
    requires OnlyIn(q, x, rs, i)
    ensures Partnered(q, x, Flatten(rs)) == if i < |rs| then Partnered(q, x, rs[i]) else []
  {
    if rs != [] {
      var n := |rs| - 1;
      var keep := y => if q.on(x, y) then [y] else [];
      FlatMapAppends(keep, Flatten(rs[..n]), rs[n]);
      if i != n {
        FlatMapNothing(keep, rs[n]);
      }
      assert OnlyIn(q, x, rs[..n], i);
      PartnersInOne(q, x, rs[..n], i);
    }
  }

  /**
    The queries that are pushed down: each partition of the left table with the one of the right table at its
    position.
  */
  function AnswerEach(q: Query, ls: seq<seq<Rows.Row>>, rs: seq<seq<Rows.Row>>): seq<seq<Rows.Row>>
    requires |ls| <= |rs|
  {
    seq(|ls|, i requires 0 <= i < |ls| => Answer(q, ls[i], rs[i]))
  }

  lemma OnlyAtPosition(q: Query, t: Pair, jump: nat -> Hasher, i: nat, x: Rows.Row)
    requires t.Valid(jump) && ImpliesKeys(q, t.lcol, t.rcol) && i < |t.ls| && x in t.ls[i]
    ensures OnlyIn(q, x, t.rs, i)
  {
    forall j, y | 0 <= j < |t.rs| && y in t.rs[j] && j != i ensures !q.on(x, y) {
      if q.on(x, y) {
        MatchesMeet(q, t, jump, i, j, x, y);
      }
    }
  }

  lemma AnswerOnePartition(q: Query, t: Pair, jump: nat -> Hasher, i: nat)
    requires t.Valid(jump) && ImpliesKeys(q, t.lcol, t.rcol) && i < |t.ls| == |t.rs|
    ensures Answer(q, t.ls[i], Flatten(t.rs)) == Answer(q, t.ls[i], t.rs[i])
  {
    forall x | x in t.ls[i] ensures AnswerOne(q, x, Flatten(t.rs)) == AnswerOne(q, x, t.rs[i]) {
      OnlyAtPosition(q, t, jump, i, x);
      PartnersInOne(q, x, t.rs, i);
    }
    FlatMapAgrees(x => AnswerOne(q, x, Flatten(t.rs)), x => AnswerOne(q, x, t.rs[i]), t.ls[i]);
  }

  lemma AnswerAppends(q: Query, xs: seq<Rows.Row>, ys: seq<Rows.Row>, all: seq<Rows.Row>)
    ensures Answer(q, xs + ys, all) == Answer(q, xs, all) + Answer(q, ys, all)
  {
    FlatMapAppends(row => AnswerOne(q, row, all), xs, ys);
  }

  lemma AnswerEachGrows(q: Query, ls: seq<seq<Rows.Row>>, rs: seq<seq<Rows.Row>>)
    requires 0 < |ls| <= |rs|
    ensures var n := |ls| - 1;
            Flatten(AnswerEach(q, ls, rs)) == Flatten(AnswerEach(q, ls[..n], rs)) + Answer(q, ls[n], rs[n])
  {
    var n := |ls| - 1;
    assert AnswerEach(q, ls, rs)[..n] == AnswerEach(q, ls[..n], rs);
  }

  /** The partition at a position has all the partners of its rows at that position. */
  ghost predicate PartnersAt(q: Query, x: seq<Rows.Row>, all: seq<Rows.Row>, y: seq<Rows.Row>) {
    Answer(q, x, all) == Answer(q, x, y)
  }

  lemma {:induction false} AnswerAll(q: Query, ls: seq<seq<Rows.Row>>, rs: seq<seq<Rows.Row>>, all: seq<Rows.Row>)
    requires |ls| <= |rs| && forall i | 0 <= i < |ls| :: PartnersAt(q, ls[i], all, rs[i])
    ensures Flatten(AnswerEach(q, ls, rs)) == Answer(q, Flatten(ls), all)
  {
    if ls != [] {
      var n := |ls| - 1;
      AnswerAll(q, ls[..n], rs, all);
      AnswerEachGrows(q, ls, rs);
      AnswerAppends(q, Flatten(ls[..n]), ls[n], all);
      assert PartnersAt(q, ls[n], all, rs[n]);
    }
  }

  /**
    Push-down is sound for inner and left joins with any ON condition that implies the equality of the
    shard keys: the answers of the partitions together are the join of the tables.
  */
  lemma PushedDownJoin(q: Query, t: Pair, jump: nat -> Hasher)
    requires t.Valid(jump) && ImpliesKeys(q, t.lcol, t.rcol)
    ensures |t.ls| == |t.rs| && forall i | 0 <= i < |t.ls| :: t.l.segments[i].backend == t.r.segments[i].backend
    ensures Flatten(AnswerEach(q, t.ls, t.rs)) == Answer(q, Flatten(t.ls), Flatten(t.rs))
  {
    SameMap(t.l, t.r, t.lconf, t.rconf);
    forall i | 0 <= i < |t.ls| ensures PartnersAt(q, t.ls[i], Flatten(t.rs), t.rs[i]) {
      AnswerOnePartition(q, t, jump, i);
    }
    AnswerAll(q, t.ls, t.rs, Flatten(t.rs));
    forall i | 0 <= i < |t.ls| ensures t.l.segments[i].backend == t.r.segments[i].backend {
      assert ShapeOf(t.l.segments[i]) == ShapeOf(t.r.segments[i]);
    }
  }

  /** The answers keep their place when the left key is selected, so a third table can be joined to them. */
  lemma AnswersStay(q: Query, t: Pair, jump: nat -> Hasher, i: nat, row: Rows.Row)
    requires t.Valid(jump) && i < |t.ls| == |t.rs| && row in AnswerEach(q, t.ls, t.rs)[i]
    requires forall x, y, r | r in q.emit(x, y) :: Rows.At(r, t.lcol) == Rows.At(x, t.lcol)
    ensures StoredIn(t.l, t.keys, row, t.lcol, i)
  {
    FlatMapMember(x => AnswerOne(q, x, t.rs[i]), t.ls[i], row);
    var x :| x in t.ls[i] && row in AnswerOne(q, x, t.rs[i]);
    var partners := Partnered(q, x, t.rs[i]);
    if partners != [] {
      FlatMapMember(y => q.emit(x, Some(y)), partners, row);
    }
    assert StoredIn(t.l, t.keys, x, t.lcol, i);
    if Rows.At(row, t.lcol).Cell? {
      var key :| StoredUnder(t.l, t.keys, x, t.lcol, i, key);
      assert StoredUnder(t.l, t.keys, row, t.lcol, i, key);
    }
  }

  // ----- Against the joins of the proxy ---------------------------------------------------------

  /** A join node of the proxy as a query of a backend. */
  function QueryOf(node: JoinNode): Query {
    Query((x, y) => Matches(node, x, y), node.isLeftJoin && !node.hasRightFilter, (x, y) => EmitOf(node, x, y))
  }

  function EmitOf(node: JoinNode, x: Rows.Row, y: Option<Rows.Row>): seq<Rows.Row> {
    if y.None? || RightIsNull(node, y.value) then [JoinRows(x, y, node.cols)] else []
  }

  lemma NodeAnswers(node: JoinNode, xs: seq<Rows.Row>, ys: seq<Rows.Row>)
    ensures Answer(QueryOf(node), xs, ys) == Join(node, xs, ys)
  {
    var q := QueryOf(node);
    forall x | x in xs ensures AnswerOne(q, x, ys) == JoinOne(node, x, ys) {
      FlatMapAgrees(y => if q.on(x, y) then [y] else [], y => if Matches(node, x, y) then [y] else [], ys);
      FlatMapAgrees(y => q.emit(x, Some(y)), r => if RightIsNull(node, r) then [JoinRows(x, Some(r), node.cols)]
        else [],
                    Partners(node, x, ys));
    }
    FlatMapAgrees(x => AnswerOne(q, x, ys), x => JoinOne(node, x, ys), xs);
  }

  /** The join keys include the two shard keys. */
  predicate OnShardKeys(node: JoinNode, lcol: nat, rcol: nat) {
    exists k | 0 <= k < |node.leftKeys| && k < |node.rightKeys| :: node.leftKeys[k] == lcol && node.rightKeys[k] == rcol
  }

  /** Pushed down or joined in the proxy, a join on the shard keys gives the same rows. */
  lemma PushedDownAgrees(node: JoinNode, t: Pair, jump: nat -> Hasher)
    requires t.Valid(jump) && OnShardKeys(node, t.lcol, t.rcol)
    ensures |t.ls| == |t.rs|
    ensures Flatten(AnswerEach(QueryOf(node), t.ls, t.rs)) == Join(node, Flatten(t.ls), Flatten(t.rs))
  {
    var q := QueryOf(node);
    forall x, y | q.on(x, y) ensures SqlHolds(Equal, Rows.At(x, t.lcol), Rows.At(y, t.rcol)) {
      var k :| 0 <= k < |node.leftKeys| && k < |node.rightKeys| && node.leftKeys[k] == t.lcol &&
        node.rightKeys[k] == t.rcol;
      assert KeysMatch(node, x, y);
    }
    PushedDownJoin(q, t, jump);
    NodeAnswers(node, Flatten(t.ls), Flatten(t.rs));
  }
}
