/** Running a nested-loop plan: variables by name and columns by number, against the rows they stand for. */
module PlanExec {
  import opened Prelude
  import opened Seqs
  import SqlExpr
  import opened Rows
  import JoinSpec
  import opened PlanTree
  import opened PlanState

  /** What a field asks of a row of its leaf. */
  datatype Item = ColItem(name: string, table: string) | ExprItem(text: string, cols: seq<SqlExpr.ColName>)

  function ItemOf(f: Field): Item {
    if f.ColField? then ColumnItem(f.col) else ExprItem(f.text, f.cols)
  }

  function ColumnItem(col: SqlExpr.ColName): Item { ColItem(SqlExpr.Lower(col.name), col.table) }

  /** A row of a leaf gives every item a value. */
  datatype Rec = Rec(get: Item -> Value)

  /** The current rows of some leaves. */
  type Combo = map<nat, Rec>

  datatype JoinInfo = JoinInfo(isLeft: bool, hasRightFilter: bool, leftTmp: seq<nat>, rightTmp: seq<nat>)

  /**
    A planned statement. `data` is what the query of a leaf returns, given values for the columns of
    other leaves that it mentions.
  */
  datatype Plan = Plan(root: Tree, home: Home, order: map<nat, nat>, s: State, all: set<SqlExpr.ColName>,
                       joins: map<nat, JoinInfo>, data: (nat, map<Item, Value>) -> seq<Rec>)
  {
    ghost predicate Ready() {
      && UniqueIds(root) && Ordered(root, order) && NamesDiffer(all)
      && PlanOk(root, s, home, order, all)
      && forall m | m in Leaves(root) :: AllBound(root, s, home, m)
    }

    function Info(id: nat): JoinInfo {
      if id in joins then joins[id] else JoinInfo(false, false, [], [])
    }
  }

  // ----- The rows of a join tree, without numbers and names -----------------------------------------

  function ValueOf(p: Plan, rows: Combo, t: Tree, f: Field): Value {
    var d := Dest(t, f.Cols(), p.home);
    if d in rows then rows[d].get(ItemOf(f)) else Null
  }

  /** The row that a node returns for the current rows of its leaves. */
  function RowAt(p: Plan, t: Tree, rows: Combo): (row: Row)
    ensures |row| == |p.s.Fields(t.id)|
  {
    seq(|p.s.Fields(t.id)|, i requires 0 <= i < |p.s.Fields(t.id)| => ValueOf(p, rows, t, p.s.Fields(t.id)[i]))
  }

  function RowsAt(p: Plan, t: Tree, all: seq<Combo>): seq<Row> {
    FlatMap((rows: Combo) => [RowAt(p, t, rows)], all)
  }

  /** The columns of other leaves that the query of leaf m mentions. */
  function Foreign(p: Plan, m: nat): set<Item> {
    set i | 0 <= i < |p.s.Uses(m)| && Elsewhere(p, m, p.s.Uses(m)[i]) :: ColumnItem(p.s.Uses(m)[i])
  }

  predicate Elsewhere(p: Plan, m: nat, col: SqlExpr.ColName) {
    col.table in p.home && p.home[col.table] != m
  }

  function Lookup(home: Home, outer: Combo, item: Item): Value {
    if item.ColItem? && item.table in home && home[item.table] in outer then outer[home[item.table]].get(item) else Null
  }

  function Params(p: Plan, m: nat, outer: Combo): map<Item, Value> {
    map item | item in Foreign(p, m) :: Lookup(p.home, outer, item)
  }

  predicate AllTrue(row: Row, idxs: seq<nat>) {
    forall i | 0 <= i < |idxs| :: CastToBool(At(row, idxs[i]))
  }

  predicate AllNull(row: Row, idxs: seq<nat>) {
    forall i | 0 <= i < |idxs| :: At(row, idxs[i]).Null?
  }

  function Padding(t: Tree): Combo {
    map id | id in Leaves(t) :: Rec((item: Item) => Null)
  }

  function Single(id: nat, rec: Rec): Combo { map[id := rec] }

  /** The combinations of leaf rows that a tree stands for, given the current rows of the leaves to the left of it. */
  ghost function Meaning(p: Plan, t: Tree, outer: Combo): seq<Combo>
    decreases t, 1
  {
    if t.Leaf? then FlatMap((rec: Rec) => [Single(t.id, rec)], p.data(t.id, Params(p, t.id, outer)))
    else FlatMap((l: Combo) => MeaningOne(p, t, outer, l), Meaning(p, t.left, outer))
  }

  ghost function MeaningOne(p: Plan, t: Tree, outer: Combo, l: Combo): seq<Combo>
    requires t.Join?
    decreases t, 0
  {
    var info := p.Info(t.id);
    var rs := if AllTrue(RowAt(p, t.left, l), info.leftTmp) then Meaning(p, t.right, outer + l) else [];
    if rs == [] then
      if info.isLeft && !info.hasRightFilter then [l + Padding(t.right)] else []
    else FlatMap((r: Combo) => if AllNull(RowAt(p, t.right, r), info.rightTmp) then [l + r] else [], rs)
  }

  lemma {:induction false} MeaningKeys(p: Plan, t: Tree, outer: Combo, rows: Combo)
    requires rows in Meaning(p, t, outer)
    ensures rows.Keys == Leaves(t)
    decreases t, 1
  {
    if t.Leaf? {
      FlatMapMember((rec: Rec) => [Single(t.id, rec)], p.data(t.id, Params(p, t.id, outer)), rows);
    } else {
      FlatMapMember((l: Combo) => MeaningOne(p, t, outer, l), Meaning(p, t.left, outer), rows);
      var l :| l in Meaning(p, t.left, outer) && rows in MeaningOne(p, t, outer, l);
      MeaningKeys(p, t.left, outer, l);
      OneKeys(p, t, outer, l, rows);
    }
  }

  lemma {:induction false} OneKeys(p: Plan, t: Tree, outer: Combo, l: Combo, rows: Combo)
    requires t.Join? && l.Keys == Leaves(t.left) && rows in MeaningOne(p, t, outer, l)
    ensures rows.Keys == Leaves(t)
    decreases t, 0
  {
    var info := p.Info(t.id);
    var rs := if AllTrue(RowAt(p, t.left, l), info.leftTmp) then Meaning(p, t.right, outer + l) else [];
    if rs != [] {
      FlatMapMember((r: Combo) => if AllNull(RowAt(p, t.right, r), info.rightTmp) then [l + r] else [], rs, rows);
      var r :| r in rs && rows == l + r;
      MeaningKeys(p, t.right, outer + l, r);
    }
  }

  // ----- Columns by number -------------------------------------------------------------------------

  /** A numbered column of a join is the value of its field. */
  lemma JoinedField(p: Plan, t: Tree, l: Combo, r: Combo, f: Field, c: int)
    requires t.Join? && UniqueIds(t) && ColOk(t, p.s, p.home, f, c) && l.Keys == Leaves(t.left)
    requires r.Keys == Leaves(t.right)
    ensures JoinSpec.ColumnOf(RowAt(p, t.left, l), Some(RowAt(p, t.right, r)), c) == ValueOf(p, l + r, t, f)
  {
    assert Ids(t.left) !! Ids(t.right);
  }

  /** The numbered columns of a join give the row of the combination. */
  lemma JoinedRow(p: Plan, t: Tree, l: Combo, r: Combo)
    requires t.Join? && UniqueIds(t) && NodeOk(t, p.s, p.home) && l.Keys == Leaves(t.left) && r.Keys == Leaves(t.right)
    ensures JoinSpec.JoinRows(RowAt(p, t.left, l), Some(RowAt(p, t.right, r)), p.s.Cols(t.id)) == RowAt(p, t, l + r)
  {
    var fields, cols := p.s.Fields(t.id), p.s.Cols(t.id);
    forall i | 0 <= i < |fields|
      ensures JoinSpec.ColumnOf(RowAt(p, t.left, l), Some(RowAt(p, t.right, r)), cols[i]) == ValueOf(p, l + r, t,
        fields[i])
    {
      JoinedField(p, t, l, r, fields[i], cols[i]);
    }
  }

  lemma PaddedField(p: Plan, t: Tree, l: Combo, f: Field, c: int)
    requires t.Join? && UniqueIds(t) && ColOk(t, p.s, p.home, f, c) && l.Keys == Leaves(t.left)
    ensures JoinSpec.ColumnOf(RowAt(p, t.left, l), None, c) == ValueOf(p, l + Padding(t.right), t, f)
  {
    assert Ids(t.left) !! Ids(t.right);
  }

  lemma PaddedRow(p: Plan, t: Tree, l: Combo)
    requires t.Join? && UniqueIds(t) && NodeOk(t, p.s, p.home) && l.Keys == Leaves(t.left)
    ensures JoinSpec.JoinRows(RowAt(p, t.left, l), None, p.s.Cols(t.id)) == RowAt(p, t, l + Padding(t.right))
  {
    var fields, cols := p.s.Fields(t.id), p.s.Cols(t.id);
    forall i | 0 <= i < |fields|
      ensures JoinSpec.ColumnOf(RowAt(p, t.left, l), None, cols[i]) == ValueOf(p, l + Padding(t.right), t, fields[i])
    {
      PaddedField(p, t, l, fields[i], cols[i]);
    }
  }
}
