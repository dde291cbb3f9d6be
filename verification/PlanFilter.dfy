/**
  Conditions and expressions sent to the leaves of a plan: an inner join tree stands for the product of its
  tables, filtered by all the conditions and projected on the select list.
*/
module PlanFilter {
  import opened Prelude
  import opened Seqs
  import opened Rows
  import SqlExpr
  import opened PlanTree
  import opened PlanState
  import opened PlanExec
  import opened PlanRun
  import opened PlanBuilder

  /**
    The rows of the tables at the leaves, on which values of its columns a condition is true, and what an
    expression is on values of its columns.
  */
  datatype Db = Db(tables: map<nat, seq<Rec>>, truth: (nat, seq<Value>) -> bool, expr: (string, seq<Value>) -> Value) {
    function Table(m: nat): seq<Rec> { if m in tables then tables[m] else [] }
  }

  // ----- The query of a leaf ----------------------------------------------------------------------

  /** A column in the query of leaf m: of its own row, or the value of a variable. */
  function Operand(home: Home, m: nat, rec: Rec, params: map<Item, Value>, col: SqlExpr.ColName): Value {
    var item := ColumnItem(col);
    if col.table in home && home[col.table] == m then rec.get(item) else if item in params then params[item] else Null
  }

  function Operands(home: Home, m: nat, rec: Rec, params: map<Item, Value>, cols: seq<SqlExpr.ColName>): seq<Value> {
    seq(|cols|, i requires 0 <= i < |cols| => Operand(home, m, rec, params, cols[i]))
  }

  predicate PassesAll(home: Home, conds: Conds, db: Db, m: nat, rec: Rec, params: map<Item, Value>) {
    forall c | c in CondsAt(conds, m) :: db.truth(c.id, Operands(home, m, rec, params, c.cols))
  }

  /** What a query returns for a row of its table: its columns, and expressions over them and the variables. */
  function Returned(home: Home, db: Db, m: nat, rec: Rec, params: map<Item, Value>): Rec {
    Rec((item: Item) =>
          if item.ColItem? then rec.get(item) else db.expr(item.text, Operands(home, m, rec, params, item.cols)))
  }

  function PassFn(home: Home, conds: Conds, db: Db, m: nat, params: map<Item, Value>): Rec -> seq<Rec> {
    (rec: Rec) => if PassesAll(home, conds, db, m, rec, params) then [Returned(home, db, m, rec, params)] else []
  }

  /** What the backends of a leaf return for its query. */
  function Data(home: Home, conds: Conds, db: Db): (nat, map<Item, Value>) -> seq<Rec> {
    (m: nat, params: map<Item, Value>) => FlatMap(PassFn(home, conds, db, m, params), db.Table(m))
  }

  // ----- The statement without a plan ---------------------------------------------------------------

  function Lookups(home: Home, rows: Combo, cols: seq<SqlExpr.ColName>): seq<Value> {
    seq(|cols|, i requires 0 <= i < |cols| => Lookup(home, rows, ColumnItem(cols[i])))
  }

  /** The condition on one combination of rows of all tables. */
  predicate Holds(home: Home, db: Db, rows: Combo, c: Cond) {
    db.truth(c.id, Lookups(home, rows, c.cols))
  }

  predicate HoldsAt(home: Home, conds: Conds, db: Db, t: Tree, rows: Combo) {
    forall m | m in Leaves(t) :: HoldsAtLeaf(home, conds, db, m, rows)
  }

  predicate HoldsAtLeaf(home: Home, conds: Conds, db: Db, m: nat, rows: Combo) {
    forall c | c in CondsAt(conds, m) :: Holds(home, db, rows, c)
  }

  /** All combinations of rows of the tables below t. */
  function Product(db: Db, t: Tree): seq<Combo> {
    if t.Leaf? then FlatMap(SingleFn(t.id), db.Table(t.id))
    else FlatMap(PairsFn(Product(db, t.right)), Product(db, t.left))
  }

  function SingleFn(id: nat): Rec -> seq<Combo> { (rec: Rec) => [Single(id, rec)] }

  function PairsFn(rs: seq<Combo>): Combo -> seq<Combo> { (l: Combo) => Pairs(l, rs) }

  function Pairs(l: Combo, rs: seq<Combo>): seq<Combo> {
    FlatMap(PairFn(l), rs)
  }

  function PairFn(l: Combo): Combo -> seq<Combo> { (r: Combo) => [l + r] }

  /** What the queries return for the current rows of their tables, next to the rows of the leaves to the left. */
  function Answered(p: Plan, db: Db, outer: Combo, rows: Combo): Combo {
    map m | m in rows :: Returned(p.home, db, m, rows[m], Params(p, m, outer + rows))
  }

  /** The combinations that satisfy the conditions at the leaves below t, next to the rows of the leaves to the left. */
  function Kept(p: Plan, conds: Conds, db: Db, t: Tree, outer: Combo, all: seq<Combo>): seq<Combo> {
    FlatMap(KeepFn(p, conds, db, t, outer), all)
  }

  function KeepFn(p: Plan, conds: Conds, db: Db, t: Tree, outer: Combo): Combo -> seq<Combo> {
    (rows: Combo) => if HoldsAt(p.home, conds, db, t, outer + rows) then [Answered(p, db, outer, rows)] else []
  }

  /** No join of the tree is a left join, and none has conditions of its own. */
  predicate Inner(p: Plan, t: Tree) {
    t.Join? ==>
      && !p.Info(t.id).isLeft && p.Info(t.id).leftTmp == [] && p.Info(t.id).rightTmp == []
      && Inner(p, t.left) && Inner(p, t.right)
  }

  lemma {:induction false} ProductKeys(db: Db, t: Tree, rows: Combo)
    requires rows in Product(db, t)
    ensures rows.Keys == Leaves(t)
  {
    if t.Leaf? {
      FlatMapMember(SingleFn(t.id), db.Table(t.id), rows);
    } else {
      FlatMapMember(PairsFn(Product(db, t.right)), Product(db, t.left), rows);
      var l :| l in Product(db, t.left) && rows in Pairs(l, Product(db, t.right));
      FlatMapMember(PairFn(l), Product(db, t.right), rows);
      var r :| r in Product(db, t.right) && rows == l + r;
      ProductKeys(db, t.left, l);
      ProductKeys(db, t.right, r);
    }
  }

  // ----- Only columns pass from leaf to leaf ---------------------------------------------------------

  /** The columns have the same values. */
  ghost predicate SameColumns(home: Home, a: Combo, b: Combo) {
    forall item: Item :: Lookup(home, a, item) == Lookup(home, b, item)
  }

  lemma SameParams(p: Plan, m: nat, a: Combo, b: Combo)
    requires SameColumns(p.home, a, b)
    ensures Params(p, m, a) == Params(p, m, b)
  {
  }

  lemma SameHolds(home: Home, conds: Conds, db: Db, t: Tree, a: Combo, b: Combo)
    requires SameColumns(home, a, b)
    ensures HoldsAt(home, conds, db, t, a) <==> HoldsAt(home, conds, db, t, b)
  {
    forall c: Cond ensures Holds(home, db, a, c) <==> Holds(home, db, b, c) {
      assert Lookups(home, a, c.cols) == Lookups(home, b, c.cols);
    }
  }

  lemma AnsweredKeepsColumns(p: Plan, db: Db, outer: Combo, l: Combo, r: Combo)
    ensures SameColumns(p.home, outer + Answered(p, db, outer, l) + r, outer + l + r)
  {
  }

  // ----- One leaf -------------------------------------------------------------------------------------

  /** A plan whose leaves are queried with the given conditions. */
  ghost predicate Queries(p: Plan, conds: Conds, db: Db) {
    p.Ready() && CondsOk(p.root, p.s, conds) && p.data == Data(p.home, conds, db)
  }

  /** The own row of a leaf is no variable of its query. */
  lemma OwnRowIsNoParam(p: Plan, m: nat, outer: Combo, rec: Rec)
    requires m !in outer
    ensures Params(p, m, outer + Single(m, rec)) == Params(p, m, outer)
  {
    forall item | item in Foreign(p, m)
      ensures Lookup(p.home, outer + Single(m, rec), item) == Lookup(p.home, outer, item)
    {
    }
  }

  lemma OperandIs(p: Plan, m: nat, rows: Combo, col: SqlExpr.ColName)
    requires p.Ready() && m in Leaves(p.root) && m in rows && col in p.s.Uses(m)
    ensures Operand(p.home, m, rows[m], Params(p, m, rows), col) == Lookup(p.home, rows, ColumnItem(col))
  {
    var k :| 0 <= k < |p.s.Uses(m)| && p.s.Uses(m)[k] == col;
    if Elsewhere(p, m, p.s.Uses(m)[k]) {
      assert ColumnItem(col) in Foreign(p, m);
    } else {
      UseIsBound(p, p.root, m, k);
    }
  }

  /** A query sees the current rows of all leaves in the columns that it mentions. */
  lemma OperandsAre(p: Plan, m: nat, rows: Combo, cols: seq<SqlExpr.ColName>)
    requires p.Ready() && m in Leaves(p.root) && m in rows && ColsMentioned(cols, p.s.Uses(m))
    ensures Operands(p.home, m, rows[m], Params(p, m, rows), cols) == Lookups(p.home, rows, cols)
  {
    forall i | 0 <= i < |cols|
      ensures Operand(p.home, m, rows[m], Params(p, m, rows), cols[i]) == Lookup(p.home, rows, ColumnItem(cols[i]))
    {
      OperandIs(p, m, rows, cols[i]);
    }
  }

  lemma LeafHolds(p: Plan, conds: Conds, db: Db, t: Tree, outer: Combo, rec: Rec)
    requires Queries(p, conds, db) && t.Leaf? && t.id in Leaves(p.root) && t.id !in outer
    ensures PassesAll(p.home, conds, db, t.id, rec, Params(p, t.id, outer)) <==>
      HoldsAt(p.home, conds, db, t, outer + Single(t.id, rec))
  {
    var rows := outer + Single(t.id, rec);
    OwnRowIsNoParam(p, t.id, outer, rec);
    assert HoldsAt(p.home, conds, db, t, rows) <==> HoldsAtLeaf(p.home, conds, db, t.id, rows);
    forall c | c in CondsAt(conds, t.id)
      ensures Operands(p.home, t.id, rec, Params(p, t.id, outer), c.cols) == Lookups(p.home, rows, c.cols)
    {
      OperandsAre(p, t.id, rows, c.cols);
    }
  }

  lemma LeafAnswered(p: Plan, db: Db, m: nat, outer: Combo, rec: Rec)
    requires m !in outer
    ensures Answered(p, db, outer, Single(m, rec)) == Single(m, Returned(p.home, db, m, rec, Params(p, m, outer)))
  {
    OwnRowIsNoParam(p, m, outer, rec);
  }

  lemma LeafMeaning(p: Plan, conds: Conds, db: Db, t: Tree, outer: Combo)
    requires Queries(p, conds, db) && t.Leaf? && t.id in Leaves(p.root) && t.id !in outer
    ensures Meaning(p, t, outer) == Kept(p, conds, db, t, outer, Product(db, t))
  {
    var table := db.Table(t.id);
    var single, keep := SingleFn(t.id), KeepFn(p, conds, db, t, outer);
    var pass := PassFn(p.home, conds, db, t.id, Params(p, t.id, outer));
    forall rec | rec in table ensures FlatMap(single, pass(rec)) == FlatMap(keep, single(rec)) {
      LeafHolds(p, conds, db, t, outer, rec);
      LeafAnswered(p, db, t.id, outer, rec);
      FlatMapOne(single, Returned(p.home, db, t.id, rec, Params(p, t.id, outer)));
      FlatMapOne(keep, Single(t.id, rec));
    }
    FlatMapTwice(single, pass, keep, single, table);
    LeafIs(p, t, outer, FlatMap(pass, table));
  }

  lemma LeafIs(p: Plan, t: Tree, outer: Combo, recs: seq<Rec>)
    requires t.Leaf? && p.data(t.id, Params(p, t.id, outer)) == recs
    ensures Meaning(p, t, outer) == FlatMap(SingleFn(t.id), recs)
  {
    FlatMapAgrees((rec: Rec) => [Single(t.id, rec)], SingleFn(t.id), recs);
  }

  // ----- Trees --------------------------------------------------------------------------------------

  /** A query on the left of a join mentions no column on the right. */
  lemma NotOnTheRight(p: Plan, t: Tree, m: nat, col: SqlExpr.ColName)
    requires p.Ready() && Within(t, p.root) && t.Join? && UniqueIds(t) && Ordered(t, p.order)
    requires m in Leaves(t.left) && col in p.s.Uses(m)
    ensures !Under(col, t.right, p.home)
  {
    WithinHasIds(t, p.root);
    var k :| 0 <= k < |p.s.Uses(m)| && p.s.Uses(m)[k] == col;
    assert Ids(t.left) !! Ids(t.right);
    if !Under(p.s.Uses(m)[k], t.left, p.home) {
      LeftAsksNotRight(p, t, m, k);
    }
  }

  lemma LookupLeft(p: Plan, t: Tree, outer: Combo, l: Combo, r: Combo, m: nat, col: SqlExpr.ColName)
    requires p.Ready() && Within(t, p.root) && t.Join? && UniqueIds(t) && Ordered(t, p.order)
    requires r.Keys == Leaves(t.right) && m in Leaves(t.left) && col in p.s.Uses(m)
    ensures Lookup(p.home, outer + (l + r), ColumnItem(col)) == Lookup(p.home, outer + l, ColumnItem(col))
  {
    NotOnTheRight(p, t, m, col);
  }

  /** A condition on the left of a join does not see the rows on the right. */
  lemma LeftSeesNotRight(p: Plan, conds: Conds, db: Db, t: Tree, outer: Combo, l: Combo, r: Combo)
    requires Queries(p, conds, db) && Within(t, p.root) && t.Join? && UniqueIds(t) && Ordered(t, p.order)
    requires l.Keys == Leaves(t.left) && r.Keys == Leaves(t.right)
    ensures HoldsAt(p.home, conds, db, t.left, outer + (l + r)) <==> HoldsAt(p.home, conds, db, t.left, outer + l)
  {
    WithinHasIds(t, p.root);
    forall m, c | m in Leaves(t.left) && c in CondsAt(conds, m)
      ensures Holds(p.home, db, outer + (l + r), c) <==> Holds(p.home, db, outer + l, c)
    {
      CondSeesNotRight(p, db, t, outer, l, r, m, c);
    }
  }

  lemma CondSeesNotRight(p: Plan, db: Db, t: Tree, outer: Combo, l: Combo, r: Combo, m: nat, c: Cond)
    requires p.Ready() && Within(t, p.root) && t.Join? && UniqueIds(t) && Ordered(t, p.order)
    requires r.Keys == Leaves(t.right) && m in Leaves(t.left) && ColsMentioned(c.cols, p.s.Uses(m))
    ensures Holds(p.home, db, outer + (l + r), c) <==> Holds(p.home, db, outer + l, c)
  {
    var a, b := Lookups(p.home, outer + (l + r), c.cols), Lookups(p.home, outer + l, c.cols);
    forall i | 0 <= i < |c.cols| ensures a[i] == b[i] {
      LookupLeft(p, t, outer, l, r, m, c.cols[i]);
    }
    assert a == b;
  }

  lemma ForeignLeft(p: Plan, t: Tree, outer: Combo, l: Combo, r: Combo, m: nat, item: Item)
    requires p.Ready() && Within(t, p.root) && t.Join? && UniqueIds(t) && Ordered(t, p.order)
    requires r.Keys == Leaves(t.right) && m in Leaves(t.left) && item in Foreign(p, m)
    ensures Lookup(p.home, outer + (l + r), item) == Lookup(p.home, outer + l, item)
  {
    var i :| 0 <= i < |p.s.Uses(m)| && ColumnItem(p.s.Uses(m)[i]) == item;
    LookupLeft(p, t, outer, l, r, m, p.s.Uses(m)[i]);
  }

  /** Nor do its variables. */
  lemma ParamsLeft(p: Plan, t: Tree, outer: Combo, l: Combo, r: Combo, m: nat)
    requires p.Ready() && Within(t, p.root) && t.Join? && UniqueIds(t) && Ordered(t, p.order)
    requires r.Keys == Leaves(t.right) && m in Leaves(t.left)
    ensures Params(p, m, outer + (l + r)) == Params(p, m, outer + l)
  {
    var foreign, a, b := Foreign(p, m), outer + (l + r), outer + l;
    forall item | item in foreign ensures Lookup(p.home, a, item) == Lookup(p.home, b, item) {
      ForeignLeft(p, t, outer, l, r, m, item);
    }
  }

  lemma HoldsOnBoth(home: Home, conds: Conds, db: Db, t: Tree, rows: Combo)
    requires t.Join?
    ensures HoldsAt(home, conds, db, t, rows) <==>
      HoldsAt(home, conds, db, t.left, rows) && HoldsAt(home, conds, db, t.right, rows)
  {
  }

  /** The conditions of a join, where the right side sees what the queries on the left returned. */
  lemma JoinHolds(p: Plan, conds: Conds, db: Db, t: Tree, outer: Combo, l: Combo, r: Combo)
    requires Queries(p, conds, db) && Within(t, p.root) && t.Join? && UniqueIds(t) && Ordered(t, p.order)
    requires l.Keys == Leaves(t.left) && r.Keys == Leaves(t.right)
    ensures HoldsAt(p.home, conds, db, t, outer + (l + r)) <==>
            && HoldsAt(p.home, conds, db, t.left, outer + l)
            && HoldsAt(p.home, conds, db, t.right, outer + Answered(p, db, outer, l) + r)
  {
    HoldsOnBoth(p.home, conds, db, t, outer + (l + r));
    LeftSeesNotRight(p, conds, db, t, outer, l, r);
    CombosAssociate(outer, l, r);
    AnsweredKeepsColumns(p, db, outer, l, r);
    SameHolds(p.home, conds, db, t.right, outer + Answered(p, db, outer, l) + r, outer + l + r);
  }

  lemma CombosAssociate(a: Combo, b: Combo, c: Combo)
    ensures a + (b + c) == a + b + c
  {
  }

  /** What the queries return for a combination, in its left and its right part. */
  lemma JoinAnswered(p: Plan, db: Db, t: Tree, outer: Combo, l: Combo, r: Combo)
    requires p.Ready() && Within(t, p.root) && t.Join? && UniqueIds(t) && Ordered(t, p.order)
    requires l.Keys == Leaves(t.left) && r.Keys == Leaves(t.right)
    ensures var al := Answered(p, db, outer, l);
            Answered(p, db, outer, l + r) == al + Answered(p, db, outer + al, r)
  {
    var left := l.Keys;
    assert l.Keys !! r.Keys by {
      assert Ids(t.left) !! Ids(t.right);
    }
    forall m | m in left ensures Params(p, m, outer + (l + r)) == Params(p, m, outer + l) {
      ParamsLeft(p, t, outer, l, r, m);
    }
    AnsweredInParts(p, db, outer, l, r);
  }

  lemma AnsweredInParts(p: Plan, db: Db, outer: Combo, l: Combo, r: Combo)
    requires l.Keys !! r.Keys && forall m | m in l.Keys :: Params(p, m, outer + (l + r)) == Params(p, m, outer + l)
    ensures var al := Answered(p, db, outer, l);
            Answered(p, db, outer, l + r) == al + Answered(p, db, outer + al, r)
  {
    var al := Answered(p, db, outer, l);
    var a, b := Answered(p, db, outer, l + r), al + Answered(p, db, outer + al, r);
    assert a.Keys == b.Keys;
    forall m | m in a ensures a[m] == b[m] {
      if m !in l {
        ParamsRight(p, db, outer, l, r, m);
      }
    }
  }

  lemma ParamsRight(p: Plan, db: Db, outer: Combo, l: Combo, r: Combo, m: nat)
    ensures Params(p, m, outer + (l + r)) == Params(p, m, outer + Answered(p, db, outer, l) + r)
  {
    CombosAssociate(outer, l, r);
    AnsweredKeepsColumns(p, db, outer, l, r);
    SameParams(p, m, outer + Answered(p, db, outer, l) + r, outer + l + r);
  }

  /** The rows of an inner join for one left row. */
  lemma InnerOne(p: Plan, conds: Conds, db: Db, t: Tree, outer: Combo, l: Combo)
    requires t.Join? && Inner(p, t)
    requires Meaning(p, t.right, outer + l) == Kept(p, conds, db, t.right, outer + l, Product(db, t.right))
    ensures MeaningOne(p, t, outer, l) == Pairs(l, Kept(p, conds, db, t.right, outer + l, Product(db, t.right)))
  {
    var info := p.Info(t.id);
    var rs := Meaning(p, t.right, outer + l);
    assert AllTrue(RowAt(p, t.left, l), info.leftTmp);
    FlatMapAgrees((r: Combo) => if AllNull(RowAt(p, t.right, r), info.rightTmp) then [l + r] else [], PairFn(l), rs);
  }

  /** Filtering the pairs of one left row is filtering its partners, if the left row passes. */
  lemma KeptPairs(p: Plan, conds: Conds, db: Db, t: Tree, outer: Combo, l: Combo)
    requires Queries(p, conds, db) && Within(t, p.root) && t.Join? && UniqueIds(t) && Ordered(t, p.order)
    requires l.Keys == Leaves(t.left)
    ensures var al := Answered(p, db, outer, l);
            Kept(p, conds, db, t, outer, Pairs(l, Product(db, t.right))) ==
            if HoldsAt(p.home, conds, db, t.left, outer + l) then
              Pairs(al, Kept(p, conds, db, t.right, outer + al, Product(db, t.right))) else []
  {
    var all, al := Product(db, t.right), Answered(p, db, outer, l);
    var pair, keep := PairFn(l), KeepFn(p, conds, db, t, outer);
    var answer, keepRight := PairFn(al), KeepFn(p, conds, db, t.right, outer + al);
    if HoldsAt(p.home, conds, db, t.left, outer + l) {
      forall r | r in all ensures FlatMap(keep, pair(r)) == FlatMap(answer, keepRight(r)) {
        KeptPair(p, conds, db, t, outer, l, r);
      }
      FlatMapTwice(keep, pair, answer, keepRight, all);
    } else {
      forall r | r in all ensures FlatMap(keep, pair(r)) == [] {
        KeptPair(p, conds, db, t, outer, l, r);
      }
      FlatMapTwiceNothing(keep, pair, all);
    }
  }

  lemma KeptPair(p: Plan, conds: Conds, db: Db, t: Tree, outer: Combo, l: Combo, r: Combo)
    requires Queries(p, conds, db) && Within(t, p.root) && t.Join? && UniqueIds(t) && Ordered(t, p.order)
    requires l.Keys == Leaves(t.left) && r in Product(db, t.right)
    ensures var al := Answered(p, db, outer, l);
            FlatMap(KeepFn(p, conds, db, t, outer), PairFn(l)(r)) ==
            if HoldsAt(p.home, conds, db, t.left, outer + l) then
              FlatMap(PairFn(al), KeepFn(p, conds, db, t.right, outer + al)(r)) else []
  {
    var al := Answered(p, db, outer, l);
    ProductKeys(db, t.right, r);
    JoinHolds(p, conds, db, t, outer, l, r);
    JoinAnswered(p, db, t, outer, l, r);
    FlatMapOne(KeepFn(p, conds, db, t, outer), l + r);
    FlatMapOne(PairFn(al), Answered(p, db, outer + al, r));
  }

  /**
    The rows that a tree of inner joins stands for are the product of its tables, filtered by the conditions
    at its leaves.
  */
  lemma {:induction false} InnerMeaning(p: Plan, conds: Conds, db: Db, t: Tree, outer: Combo)
    requires Queries(p, conds, db) && Within(t, p.root) && Inner(p, t) && outer.Keys !! Leaves(t)
    ensures Meaning(p, t, outer) == Kept(p, conds, db, t, outer, Product(db, t))
    decreases t
  {
    WithinHasIds(t, p.root);
    if t.Leaf? {
      LeafMeaning(p, conds, db, t, outer);
    } else {
      SubtreeReady(p, t);
      InnerMeaning(p, conds, db, t.left, outer);
      JoinMeaning(p, conds, db, t, outer);
    }
  }

  lemma {:induction false} JoinMeaning(p: Plan, conds: Conds, db: Db, t: Tree, outer: Combo)
    requires Queries(p, conds, db) && Within(t, p.root) && Inner(p, t) && outer.Keys !! Leaves(t)
    requires t.Join? && UniqueIds(t) && Ordered(t, p.order) && Within(t.right, p.root)
    requires Meaning(p, t.left, outer) == Kept(p, conds, db, t.left, outer, Product(db, t.left))
    ensures Meaning(p, t, outer) == Kept(p, conds, db, t, outer, Product(db, t))
    decreases t, 0
  {
    var all := Product(db, t.left);
    var one, keepLeft := OneFn(p, t, outer), KeepFn(p, conds, db, t.left, outer);
    var pairs, keep := PairsFn(Product(db, t.right)), KeepFn(p, conds, db, t, outer);
    forall l | l in all ensures FlatMap(one, keepLeft(l)) == FlatMap(keep, pairs(l)) {
      RowMeaning(p, conds, db, t, outer, l);
    }
    FlatMapTwice(one, keepLeft, keep, pairs, all);
    FlatMapAgrees((l: Combo) => MeaningOne(p, t, outer, l), one, Meaning(p, t.left, outer));
  }

  /** The pairs of one row of the left side. */
  lemma {:induction false} RowMeaning(p: Plan, conds: Conds, db: Db, t: Tree, outer: Combo, l: Combo)
    requires Queries(p, conds, db) && Within(t, p.root) && Inner(p, t) && outer.Keys !! Leaves(t)
    requires t.Join? && UniqueIds(t) && Ordered(t, p.order) && Within(t.right, p.root) && l in Product(db, t.left)
    ensures FlatMap(OneFn(p, t, outer), KeepFn(p, conds, db, t.left, outer)(l)) ==
            FlatMap(KeepFn(p, conds, db, t, outer), PairsFn(Product(db, t.right))(l))
    decreases t, 0, 0
  {
    var al := Answered(p, db, outer, l);
    ProductKeys(db, t.left, l);
    FlatMapOne(OneFn(p, t, outer), al);
    KeptPairs(p, conds, db, t, outer, l);
    assert Ids(t.left) !! Ids(t.right);
    InnerMeaning(p, conds, db, t.right, outer + al);
    InnerOne(p, conds, db, t, outer, al);
  }

  /**
    A right side that consists of inner joins, also that of a left join, answers the conditions at its leaves:
    it returns the rows of its tables on which they are true next to the current left row.
  */
  lemma RightAnswers(p: Plan, conds: Conds, db: Db, t: Tree, outer: Combo, l: Combo)
    requires Queries(p, conds, db) && Within(t, p.root) && t.Join? && Inner(p, t.right)
    requires outer.Keys !! Leaves(t) && l.Keys == Leaves(t.left)
    ensures Meaning(p, t.right, outer + l) == Kept(p, conds, db, t.right, outer + l, Product(db, t.right))
  {
    SubtreeReady(p, t);
    assert Ids(t.left) !! Ids(t.right);
    InnerMeaning(p, conds, db, t.right, outer + l);
  }

  // ----- The whole statement ----------------------------------------------------------------------------

  predicate HoldsAll(home: Home, db: Db, pushed: seq<Cond>, rows: Combo) {
    forall c | c in pushed :: Holds(home, db, rows, c)
  }

  function FieldValue(home: Home, db: Db, rows: Combo, f: Field): Value {
    if f.ColField? then Lookup(home, rows, ColumnItem(f.col)) else db.expr(f.text, Lookups(home, rows, f.cols))
  }

  /** The select list on one combination of rows of all tables. */
  function Project(home: Home, db: Db, fields: seq<Field>, rows: Combo): Row {
    seq(|fields|, i requires 0 <= i < |fields| => FieldValue(home, db, rows, fields[i]))
  }

  /** The product of all tables, filtered by the conditions and projected on the select list. */
  function Selected(root: Tree, home: Home, db: Db, pushed: seq<Cond>, fields: seq<Field>): seq<Row> {
    FlatMap(SelectFn(home, db, pushed, fields), Product(db, root))
  }

  function SelectFn(home: Home, db: Db, pushed: seq<Cond>, fields: seq<Field>): Combo -> seq<Row> {
    (rows: Combo) => if HoldsAll(home, db, pushed, rows) then [Project(home, db, fields, rows)] else []
  }

  lemma SameConditions(root: Tree, home: Home, conds: Conds, db: Db, pushed: seq<Cond>, rows: Combo)
    requires Carries(root, conds, pushed)
    ensures HoldsAt(home, conds, db, root, rows) <==> HoldsAll(home, db, pushed, rows)
  {
    if HoldsAt(home, conds, db, root, rows) {
      forall c | c in pushed ensures Holds(home, db, rows, c) {
        assert CarriedBy(root, conds, c);
        var m :| m in Leaves(root) && c in CondsAt(conds, m);
        assert HoldsAtLeaf(home, conds, db, m, rows);
      }
    }
    if HoldsAll(home, db, pushed, rows) {
      forall m, c | m in Leaves(root) && c in CondsAt(conds, m) ensures Holds(home, db, rows, c) {
        assert CarriedBy(root, conds, c);
      }
    }
  }

  lemma FieldIsMentioned(p: Plan, f: Field)
    requires p.Ready() && f in p.s.Fields(p.root.id)
    ensures ColsMentioned(f.Cols(), p.s.Uses(Dest(p.root, f.Cols(), p.home)))
  {
    var d := Dest(p.root, f.Cols(), p.home);
    FieldIsAtLeaf(p.root, p.s, p.home, f);
    assert AllMentioned(p.s.Fields(d), p.s.Uses(d));
  }

  /** What the leaf of a field returned for it is its value on the rows of all tables. */
  lemma FieldIs(p: Plan, db: Db, rows: Combo, f: Field)
    requires p.Ready() && rows.Keys == Leaves(p.root) && f in p.s.Fields(p.root.id)
    ensures ValueOf(p, Answered(p, db, map[], rows), p.root, f) == FieldValue(p.home, db, rows, f)
  {
    var d := Dest(p.root, f.Cols(), p.home);
    assert map[] + rows == rows;
    FieldIsMentioned(p, f);
    if f.ColField? {
      assert f.Cols()[0] == f.col;
      var k :| 0 <= k < |p.s.Uses(d)| && p.s.Uses(d)[k] == f.col;
      UseIsBound(p, p.root, d, k);
      DestOfColumn(p.root, f.col, p.home);
    } else {
      OperandsAre(p, d, rows, f.cols);
    }
  }

  lemma RowIs(p: Plan, db: Db, rows: Combo)
    requires p.Ready() && rows.Keys == Leaves(p.root)
    ensures RowAt(p, p.root, Answered(p, db, map[], rows)) == Project(p.home, db, p.s.Fields(p.root.id), rows)
  {
    var fields := p.s.Fields(p.root.id);
    forall i | 0 <= i < |fields|
      ensures ValueOf(p, Answered(p, db, map[], rows), p.root, fields[i]) == FieldValue(p.home, db, rows, fields[i])
    {
      FieldIs(p, db, rows, fields[i]);
    }
  }

  function RowFn(p: Plan): Combo -> seq<Row> { (rows: Combo) => [RowAt(p, p.root, rows)] }

  lemma RootRow(p: Plan, conds: Conds, db: Db, pushed: seq<Cond>, rows: Combo)
    requires p.Ready() && Carries(p.root, conds, pushed) && rows.Keys == Leaves(p.root)
    ensures FlatMap(RowFn(p), KeepFn(p, conds, db, p.root, map[])(rows)) ==
            FlatMap(OneRow, SelectFn(p.home, db, pushed, p.s.Fields(p.root.id))(rows))
  {
    assert map[] + rows == rows;
    SameConditions(p.root, p.home, conds, db, pushed, rows);
    RowIs(p, db, rows);
    FlatMapOne(RowFn(p), Answered(p, db, map[], rows));
    FlatMapOne(OneRow, Project(p.home, db, p.s.Fields(p.root.id), rows));
  }

  /** A tree of inner joins returns what the statement selects from the product of its tables. */
  lemma RootMeaning(p: Plan, conds: Conds, db: Db, pushed: seq<Cond>)
    requires Queries(p, conds, db) && Inner(p, p.root) && Carries(p.root, conds, pushed)
    ensures RowsAt(p, p.root, Meaning(p, p.root, map[])) ==
            Selected(p.root, p.home, db, pushed, p.s.Fields(p.root.id))
  {
    InnerMeaning(p, conds, db, p.root, map[]);
    var all, keep := Product(db, p.root), KeepFn(p, conds, db, p.root, map[]);
    var select := SelectFn(p.home, db, pushed, p.s.Fields(p.root.id));
    forall rows | rows in all ensures FlatMap(RowFn(p), keep(rows)) == FlatMap(OneRow, select(rows)) {
      ProductKeys(db, p.root, rows);
      RootRow(p, conds, db, pushed, rows);
    }
    FlatMapTwice(RowFn(p), keep, OneRow, select, all);
    OneRowIsSame(FlatMap(select, all));
    FlatMapAgrees((rows: Combo) => [RowAt(p, p.root, rows)], RowFn(p), FlatMap(keep, all));
  }

  function OneRow(row: Row): seq<Row> { [row] }

  lemma {:induction false} OneRowIsSame(rows: seq<Row>)
    ensures FlatMap(OneRow, rows) == rows
  {
    if rows != [] {
      var n := |rows| - 1;
      OneRowIsSame(rows[..n]);
      assert FlatMap(OneRow, rows) == rows[..n] + [rows[n]];
      assert rows == rows[..n] + [rows[n]];
    }
  }

  /**
    Plans and runs a statement of inner joins: it returns the select list on every combination of rows of the
    tables that satisfies every condition, and fails exactly when a join returns more rows than the limit.
  */
  method SelectInner(planner: Planner, joins: map<nat, JoinInfo>, db: Db, maxrow: int) returns (r: Option<seq<Row>>)
    requires planner.Valid() && planner.PrintedOk() && planner.printed == []
    requires forall id | id in joins :: !joins[id].isLeft && joins[id].leftTmp == [] && joins[id].rightTmp == []
    modifies planner`s, planner`printed
    ensures r.Some? ==>
      r.value == Selected(planner.root, planner.home, db, planner.pushed, old(planner.s).Fields(planner.root.id))
    ensures r.Some? <==>
      Fits(Plan(planner.root, planner.home, planner.order, planner.s, planner.all, joins,
                Data(planner.home, planner.conds, db)), planner.root, map[], maxrow)
  {
    r := PlanAndRun(planner, joins, Data(planner.home, planner.conds, db), maxrow);
    ghost var p := Plan(planner.root, planner.home, planner.order, planner.s, planner.all, joins,
                        Data(planner.home, planner.conds, db));
    AllInner(p, p.root);
    RootMeaning(p, planner.conds, db, planner.pushed);
  }

  lemma {:induction false} AllInner(p: Plan, t: Tree)
    requires forall id | id in p.joins :: !p.joins[id].isLeft && p.joins[id].leftTmp == [] && p.joins[id].rightTmp == []
    ensures Inner(p, t)
  {
    if t.Join? {
      AllInner(p, t.left);
      AllInner(p, t.right);
    }
  }
}
