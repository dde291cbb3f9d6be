/**
  What a cross-shard join means, row by row: for each left row its matching right rows, or one row
  padded with NULLs when the join is a left join without filters on the right side.
*/
module JoinSpec {
  import opened Prelude
  import opened Rows
  import opened Seqs

  /** `Other` stands for the comparison operators the executor has no case for. */
  datatype Operator = Equal | LessThan | GreaterThan | LessEqual | GreaterEqual | NotEqual | NullSafeEqual | Other

  datatype Comparison = Comparison(left: nat, right: nat, op: Operator, exchange: bool)

  datatype JoinNode = JoinNode(
    leftKeys: seq<nat>, rightKeys: seq<nat>,
    leftTmpCols: seq<nat>, rightTmpCols: seq<nat>,
    cmpFilter: seq<Comparison>, cols: seq<int>,
    isLeftJoin: bool, hasRightFilter: bool)
  {
    predicate Valid() {
      |leftKeys| == |rightKeys| && 0 !in cols
    }
  }

  /** SQL truth of a comparison: unknown counts as not true, only <=> accepts NULL. */
  predicate SqlHolds(op: Operator, a: Value, b: Value) {
    if op == NullSafeEqual then a == b == Null || (a.Cell? && b.Cell? && a.rank == b.rank)
    else
      a.Cell? && b.Cell? &&
      match op
      case Equal => a.rank == b.rank
      case LessThan => a.rank < b.rank
      case GreaterThan => a.rank > b.rank
      case LessEqual => a.rank <= b.rank
      case GreaterEqual => a.rank >= b.rank
      case NotEqual => a.rank != b.rank
      case _ => true
  }

  predicate FilterHolds(f: Comparison, l: Row, r: Row) {
    if f.exchange then SqlHolds(f.op, At(r, f.right), At(l, f.left))
    else SqlHolds(f.op, At(l, f.left), At(r, f.right))
  }

  predicate KeysMatch(node: JoinNode, l: Row, r: Row) {
    forall k | 0 <= k < |node.leftKeys| && k < |node.rightKeys| ::
      SqlHolds(Equal, At(l, node.leftKeys[k]), At(r, node.rightKeys[k]))
  }

  predicate LeftAccepts(node: JoinNode, l: Row) {
    forall i | 0 <= i < |node.leftTmpCols| :: CastToBool(At(l, node.leftTmpCols[i]))
  }

  predicate RightIsNull(node: JoinNode, r: Row) {
    forall i | 0 <= i < |node.rightTmpCols| :: At(r, node.rightTmpCols[i]).Null?
  }

  /** The ON condition of the join. */
  predicate Matches(node: JoinNode, l: Row, r: Row) {
    && KeysMatch(node, l, r)
    && LeftAccepts(node, l)
    && forall i | 0 <= i < |node.cmpFilter| :: FilterHolds(node.cmpFilter[i], l, r)
  }

  /** One column of a result row: negative ones come from the left, positive ones from the right row if there is one. */
  function ColumnOf(l: Row, r: Option<Row>, col: int): Value {
    if col < 0 then At(l, -col - 1) else if col > 0 && r.Some? then At(r.value, col - 1) else Null
  }

  function JoinRows(l: Row, r: Option<Row>, cols: seq<int>): Row {
    seq(|cols|, i requires 0 <= i < |cols| => ColumnOf(l, r, cols[i]))
  }

  /** Right rows that match l, in order. */
  function Partners(node: JoinNode, l: Row, rows: seq<Row>): seq<Row> {
    FlatMap(r => if Matches(node, l, r) then [r] else [], rows)
  }

  /** Result rows for the partners of l; the IS NULL conditions of the WHERE clause drop some. */
  function Emit(node: JoinNode, l: Row, partners: seq<Row>): seq<Row> {
    FlatMap(r => if RightIsNull(node, r) then [JoinRows(l, Some(r), node.cols)] else [], partners)
  }

  function Pad(node: JoinNode, l: Row): seq<Row> {
    if node.isLeftJoin && !node.hasRightFilter then [JoinRows(l, None, node.cols)] else []
  }

  function PadAll(node: JoinNode, left: seq<Row>): seq<Row> {
    FlatMap(l => Pad(node, l), left)
  }

  function JoinOne(node: JoinNode, l: Row, right: seq<Row>): seq<Row> {
    var partners := Partners(node, l, right);
    if partners == [] then Pad(node, l) else Emit(node, l, partners)
  }

  /** The definition of the join. */
  function Join(node: JoinNode, left: seq<Row>, right: seq<Row>): seq<Row> {
    FlatMap(l => JoinOne(node, l, right), left)
  }

  // ----- Facts about the definition -------------------------------------------------

  lemma PartnersAppend(node: JoinNode, l: Row, a: seq<Row>, b: seq<Row>)
    ensures Partners(node, l, a + b) == Partners(node, l, a) + Partners(node, l, b)
  {
    FlatMapAppends(r => if Matches(node, l, r) then [r] else [], a, b);
  }

  lemma PartnersPrefix(node: JoinNode, l: Row, right: seq<Row>, j: nat)
    requires j < |right|
    ensures Partners(node, l, right[..j + 1]) ==
            Partners(node, l, right[..j]) + (if Matches(node, l, right[j]) then [right[j]] else [])
  {
    assert right[..j + 1][..j] == right[..j];
  }

  lemma EmitAppends(node: JoinNode, l: Row, a: seq<Row>, b: seq<Row>)
    ensures Emit(node, l, a + b) == Emit(node, l, a) + Emit(node, l, b)
  {
    FlatMapAppends(r => if RightIsNull(node, r) then [JoinRows(l, Some(r), node.cols)] else [], a, b);
  }

  lemma EmitOne(node: JoinNode, l: Row, r: Row)
    ensures Emit(node, l, [r]) == if RightIsNull(node, r) then [JoinRows(l, Some(r), node.cols)] else []
  {
    var emit := (x: Row) => if RightIsNull(node, x) then [JoinRows(l, Some(x), node.cols)] else [];
    assert FlatMap(emit, [r]) == FlatMap(emit, []) + emit(r);
  }

  lemma NoPartners(node: JoinNode, l: Row, rows: seq<Row>)
    requires forall r | r in rows :: !Matches(node, l, r)
    ensures Partners(node, l, rows) == []
  {
    FlatMapNothing(r => if Matches(node, l, r) then [r] else [], rows);
  }

  lemma PadAllAppends(node: JoinNode, a: seq<Row>, b: seq<Row>)
    ensures PadAll(node, a + b) == PadAll(node, a) + PadAll(node, b)
  {
    FlatMapAppends(l => Pad(node, l), a, b);
  }

  lemma PadAllPrefix(node: JoinNode, left: seq<Row>, i: nat)
    requires i < |left| && node.isLeftJoin && !node.hasRightFilter
    ensures PadAll(node, left[..i + 1]) == PadAll(node, left[..i]) + [JoinRows(left[i], None, node.cols)]
    ensures PadAll(node, left) == PadAll(node, left[..i + 1]) + PadAll(node, left[i + 1..])
  {
    assert left[..i + 1][..i] == left[..i];
    assert left == left[..i + 1] + left[i + 1..];
    PadAllAppends(node, left[..i + 1], left[i + 1..]);
  }

  lemma PadAllNothing(node: JoinNode, left: seq<Row>)
    requires !node.isLeftJoin || node.hasRightFilter
    ensures PadAll(node, left) == []
  {
    FlatMapNothing(l => Pad(node, l), left);
  }

  lemma JoinAppends(node: JoinNode, a: seq<Row>, b: seq<Row>, right: seq<Row>)
    ensures Join(node, a + b, right) == Join(node, a, right) + Join(node, b, right)
  {
    FlatMapAppends(l => JoinOne(node, l, right), a, b);
  }

  /** Right rows that match nobody on the left can be left out. */
  lemma JoinIsLocal(node: JoinNode, left: seq<Row>, right: seq<Row>, a: nat, b: nat)
    requires a <= b <= |right|
    requires forall l, k | l in left && (0 <= k < a || b <= k < |right|) :: !Matches(node, l, right[k])
    ensures Join(node, left, right) == Join(node, left, right[a..b])
  {
    forall l | l in left ensures JoinOne(node, l, right) == JoinOne(node, l, right[a..b]) {
      assert right == right[..a] + right[a..b] + right[b..];
      PartnersAppend(node, l, right[..a] + right[a..b], right[b..]);
      PartnersAppend(node, l, right[..a], right[a..b]);
      NoPartners(node, l, right[..a]);
      NoPartners(node, l, right[b..]);
      assert Partners(node, l, right) == Partners(node, l, right[a..b]);
    }
    FlatMapAgrees(l => JoinOne(node, l, right), l => JoinOne(node, l, right[a..b]), left);
  }

  lemma JoinIsPadding(node: JoinNode, left: seq<Row>, right: seq<Row>)
    requires forall l, r | l in left && r in right :: !Matches(node, l, r)
    ensures Join(node, left, right) == PadAll(node, left)
  {
    forall l | l in left ensures JoinOne(node, l, right) == Pad(node, l) {
      NoPartners(node, l, right);
    }
    FlatMapAgrees(l => JoinOne(node, l, right), l => Pad(node, l), left);
  }

  lemma JoinOnePermutes(node: JoinNode, l: Row, s: seq<Row>, t: seq<Row>)
    requires multiset(s) == multiset(t)
    ensures multiset(JoinOne(node, l, s)) == multiset(JoinOne(node, l, t))
  {
    var p, q := Partners(node, l, s), Partners(node, l, t);
    var keep := (r: Row) => if Matches(node, l, r) then [r] else [];
    FlatMapPermutes(keep, keep, s, t);
    assert multiset(p) == multiset(q);
    assert |p| == |multiset(p)| && |q| == |multiset(q)|;
    var emit := (r: Row) => if RightIsNull(node, r) then [JoinRows(l, Some(r), node.cols)] else [];
    FlatMapPermutes(emit, emit, p, q);
  }

  /** The result of a join, as a bag, does not depend on the order of its inputs. */
  lemma JoinPermutes(node: JoinNode, l: seq<Row>, l': seq<Row>, r: seq<Row>, r': seq<Row>)
    requires multiset(l) == multiset(l') && multiset(r) == multiset(r')
    ensures multiset(Join(node, l, r)) == multiset(Join(node, l', r'))
  {
    forall x | x in l ensures multiset(JoinOne(node, x, r)) == multiset(JoinOne(node, x, r')) {
      JoinOnePermutes(node, x, r, r');
    }
    FlatMapPermutes(x => JoinOne(node, x, r), x => JoinOne(node, x, r'), l, l');
  }
}
