/** The nested-loop executor finds every variable bound, to the column of the current row it stands for. */
module PlanRun {
  import opened Prelude
  import opened Seqs
  import opened Rows
  import SqlExpr
  import JoinSpec
  import opened PlanTree
  import opened PlanState
  import opened PlanExec
  import opened PlanBuilder

  // ----- Variables by name ---------------------------------------------------------------------------

  /** The variable of a column holds the value of that column in the current rows. */
  ghost predicate BoundTo(p: Plan, bind: map<string, Value>, outer: Combo, col: SqlExpr.ColName) {
    && VarName(col) in bind && col.table in p.home && p.home[col.table] in outer
    && bind[VarName(col)] == Lookup(p.home, outer, ColumnItem(col))
  }

  /** Every column that the queries below t ask from outside of t is bound. */
  ghost predicate Agrees(p: Plan, t: Tree, bind: map<string, Value>, outer: Combo) {
    forall m, i | m in Leaves(t) && 0 <= i < |p.s.Uses(m)| && !Under(p.s.Uses(m)[i], t, p.home) ::
      BoundTo(p, bind, outer, p.s.Uses(m)[i])
  }

  lemma {:induction false} LCAIs(h: Tree, t: Tree, a: nat, b: nat)
    requires UniqueIds(h) && Within(t, h) && t.Join? && a in Leaves(t.left) && b in Leaves(t.right)
    ensures FindLCA(h, a, b) == Some(t)
  {
    WithinHasIds(t, h);
    LCAFindsOne(t.left, a, b);
    LCAFindsOne(t.right, a, b);
    if h != t {
      Side(h, t, a);
      Side(h, t, b);
      LCAFindsOne(h.left, a, b);
      LCAFindsOne(h.right, a, b);
      if Within(t, h.left) {
        LCAIs(h.left, t, a, b);
      } else {
        LCAIs(h.right, t, a, b);
      }
    }
  }

  /** A leaf on the left never asks for a column on the right. */
  lemma LeftAsksNotRight(p: Plan, t: Tree, m: nat, i: nat)
    requires p.Ready() && Within(t, p.root) && t.Join? && Ordered(t, p.order)
    requires m in Leaves(t.left) && i < |p.s.Uses(m)| && !Under(p.s.Uses(m)[i], t.left, p.home)
    ensures !Under(p.s.Uses(m)[i], t, p.home)
  {
    WithinHasIds(t, p.root);
    assert AllReachable(p.root, p.home, p.order, p.all, m, p.s.Uses(m));
    assert Reachable(p.root, p.home, p.order, m, p.s.Uses(m)[i]);
  }

  lemma AgreesLeft(p: Plan, t: Tree, bind: map<string, Value>, outer: Combo)
    requires p.Ready() && Within(t, p.root) && t.Join? && Ordered(t, p.order) && Agrees(p, t, bind, outer)
    ensures Agrees(p, t.left, bind, outer)
  {
    forall m, i | m in Leaves(t.left) && 0 <= i < |p.s.Uses(m)| && !Under(p.s.Uses(m)[i], t.left, p.home)
      ensures BoundTo(p, bind, outer, p.s.Uses(m)[i])
    {
      LeftAsksNotRight(p, t, m, i);
    }
  }

  /** The variables of a join, taken from the current left row. */
  function JoinVars(p: Plan, t: Tree, lrow: Row): map<string, Value> {
    map name | name in p.s.Vars(t.id) :: At(lrow, p.s.Vars(t.id)[name])
  }

  lemma VarIsOfColumn(p: Plan, t: Tree, col: SqlExpr.ColName)
    requires p.Ready() && Within(t, p.root) && t.Join? && col in p.all && VarName(col) in p.s.Vars(t.id)
    ensures Under(col, t.left, p.home)
    ensures var index := p.s.Vars(t.id)[VarName(col)]; var fields := p.s.Fields(t.left.id);
            index < |fields| && fields[index].ColField? && SqlExpr.SameCol(col, fields[index].col)
  {
    var name := VarName(col);
    assert VarOk(t, p.s, p.home, p.all, name, p.s.Vars(t.id)[name]);
    var c :| c in p.all && VarName(c) == name && Under(c, t.left, p.home) &&
      SqlExpr.SameCol(c, p.s.Fields(t.left.id)[p.s.Vars(t.id)[name]].col);
    assert SqlExpr.SameCol(col, c);
  }

  /** The variable of a column of the left side has its value in the current left row. */
  lemma VarHasValue(p: Plan, t: Tree, l: Combo, col: SqlExpr.ColName)
    requires p.Ready() && Within(t, p.root) && t.Join? && col in p.all && VarName(col) in p.s.Vars(t.id)
    requires l.Keys == Leaves(t.left)
    ensures col.table in p.home && p.home[col.table] in l
    ensures JoinVars(p, t, RowAt(p, t.left, l))[VarName(col)] == l[p.home[col.table]].get(ColumnItem(col))
  {
    VarIsOfColumn(p, t, col);
    WithinHasIds(t, p.root);
    var f := p.s.Fields(t.left.id)[p.s.Vars(t.id)[VarName(col)]];
    DestOfColumn(t.left, f.col, p.home);
    assert ValueOf(p, l, t.left, f) == l[p.home[col.table]].get(ColumnItem(col));
  }

  /** A column of the left side is bound by the join. */
  lemma BoundHere(p: Plan, t: Tree, bind: map<string, Value>, outer: Combo, l: Combo, m: nat, col: SqlExpr.ColName)
    requires p.Ready() && Within(t, p.root) && t.Join? && l.Keys == Leaves(t.left) && col in p.all
    requires m in Leaves(t.right) && Under(col, t.left, p.home) && Bound(p.root, p.s, p.home, m, col)
    ensures BoundTo(p, bind + JoinVars(p, t, RowAt(p, t.left, l)), outer + l, col)
  {
    WithinHasIds(t, p.root);
    LCAIs(p.root, t, p.home[col.table], m);
    assert p.home[col.table] != m;
    VarHasValue(p, t, l, col);
    BoundByRow(p, bind, JoinVars(p, t, RowAt(p, t.left, l)), outer, l, col);
  }

  lemma BoundByRow(p: Plan, bind: map<string, Value>, vars: map<string, Value>, outer: Combo, l: Combo,
                   col: SqlExpr.ColName)
    requires VarName(col) in vars && col.table in p.home && p.home[col.table] in l
    requires vars[VarName(col)] == l[p.home[col.table]].get(ColumnItem(col))
    ensures BoundTo(p, bind + vars, outer + l, col)
  {
  }

  /** A column from further left stays bound: no variable of this join has its name. */
  lemma StillBound(p: Plan, t: Tree, bind: map<string, Value>, outer: Combo, l: Combo, col: SqlExpr.ColName)
    requires p.Ready() && Within(t, p.root) && t.Join? && l.Keys == Leaves(t.left) && col in p.all
    requires BoundTo(p, bind, outer, col) && !Under(col, t.left, p.home)
    ensures BoundTo(p, bind + JoinVars(p, t, RowAt(p, t.left, l)), outer + l, col)
  {
    if VarName(col) in p.s.Vars(t.id) {
      VarIsOfColumn(p, t, col);
    }
  }

  lemma UseIsBound(p: Plan, t: Tree, m: nat, i: nat)
    requires p.Ready() && Within(t, p.root) && m in Leaves(t) && i < |p.s.Uses(m)|
    ensures p.s.Uses(m)[i] in p.all && Bound(p.root, p.s, p.home, m, p.s.Uses(m)[i])
  {
    WithinHasIds(t, p.root);
    assert AllReachable(p.root, p.home, p.order, p.all, m, p.s.Uses(m));
    assert AllBound(p.root, p.s, p.home, m);
  }

  lemma AgreesRight(p: Plan, t: Tree, bind: map<string, Value>, outer: Combo, l: Combo)
    requires p.Ready() && Within(t, p.root) && t.Join? && Agrees(p, t, bind, outer) && l.Keys == Leaves(t.left)
    ensures Agrees(p, t.right, bind + JoinVars(p, t, RowAt(p, t.left, l)), outer + l)
  {
    forall m, i | m in Leaves(t.right) && 0 <= i < |p.s.Uses(m)| && !Under(p.s.Uses(m)[i], t.right, p.home)
      ensures BoundTo(p, bind + JoinVars(p, t, RowAt(p, t.left, l)), outer + l, p.s.Uses(m)[i])
    {
      UseIsBound(p, t, m, i);
      if Under(p.s.Uses(m)[i], t.left, p.home) {
        BoundHere(p, t, bind, outer, l, m, p.s.Uses(m)[i]);
      } else {
        StillBound(p, t, bind, outer, l, p.s.Uses(m)[i]);
      }
    }
  }

  // ----- The rows of one left row ------------------------------------------------------------------

  /** The result rows for a left row, from the numbered columns. */
  function NestOne(p: Plan, t: Tree, lrow: Row, rrows: seq<Row>): seq<Row> {
    var info := p.Info(t.id);
    if rrows == [] then
      if info.isLeft && !info.hasRightFilter then [JoinSpec.JoinRows(lrow, None, p.s.Cols(t.id))] else []
    else FlatMap(NestFn(p, t, lrow), rrows)
  }

  function NestFn(p: Plan, t: Tree, lrow: Row): Row -> seq<Row> { (r: Row) => NestRow(p, t, lrow, r) }

  function NestRow(p: Plan, t: Tree, lrow: Row, r: Row): seq<Row> {
    if AllNull(r, p.Info(t.id).rightTmp) then [JoinSpec.JoinRows(lrow, Some(r), p.s.Cols(t.id))] else []
  }

  /** The result of a join is within the row limit; a result without rows always is. */
  predicate Small(n: nat, maxrow: int) { n == 0 || n <= maxrow }

  /** Adding `one` to the rows fails when there is no result or one above the limit. */
  predicate Adds(rows: seq<Row>, one: seq<Row>, maxrow: int, fits: bool, r: Option<seq<Row>>) {
    if fits && Small(|rows| + |one|, maxrow) then r == Some(rows + one) else r == None
  }

  /** Adds the result rows for a left row, until there are more than the limit. */
  method JoinOneRow(p: Plan, t: Tree, lrow: Row, rrows: seq<Row>, rows: seq<Row>, maxrow: int)
    returns (r: Option<seq<Row>>)
    requires Small(|rows|, maxrow)
    ensures Adds(rows, NestOne(p, t, lrow, rrows), maxrow, true, r)
  {
    if |rrows| == 0 {
      r := AddPadding(p, t, lrow, rows, maxrow);
    } else {
      r := AddPairs(p, t, lrow, rrows, rows, maxrow);
    }
  }

  method AddPadding(p: Plan, t: Tree, lrow: Row, rows: seq<Row>, maxrow: int) returns (r: Option<seq<Row>>)
    requires Small(|rows|, maxrow)
    ensures Adds(rows, NestOne(p, t, lrow, []), maxrow, true, r)
  {
    var all := rows;
    assert rows + [] == rows;
    if p.Info(t.id).isLeft && !p.Info(t.id).hasRightFilter {
      all := all + [JoinSpec.JoinRows(lrow, None, p.s.Cols(t.id))];
      if |all| > maxrow {
        return None;
      }
    }
    r := Some(all);
  }

  method AddPairs(p: Plan, t: Tree, lrow: Row, rrows: seq<Row>, rows: seq<Row>, maxrow: int)
    returns (r: Option<seq<Row>>)
    requires Small(|rows|, maxrow)
    ensures Adds(rows, FlatMap(NestFn(p, t, lrow), rrows), maxrow, true, r)
  {
    var all := rows;
    ghost var made := [];
    for k := 0 to |rrows|
      invariant made == FlatMap(NestFn(p, t, lrow), rrows[..k]) && all == rows + made && Small(|all|, maxrow)
    {
      NestNext(p, t, lrow, rrows, k);
      made := made + NestRow(p, t, lrow, rrows[k]);
      if AllNull(rrows[k], p.Info(t.id).rightTmp) {
        all := all + [JoinSpec.JoinRows(lrow, Some(rrows[k]), p.s.Cols(t.id))];
        if |all| > maxrow {
          return None;
        }
      }
    }
    assert rrows[..|rrows|] == rrows;
    r := Some(all);
  }

  lemma NestNext(p: Plan, t: Tree, lrow: Row, rrows: seq<Row>, k: nat)
    requires k < |rrows|
    ensures var f := NestFn(p, t, lrow);
            && FlatMap(f, rrows[..k + 1]) == FlatMap(f, rrows[..k]) + NestRow(p, t, lrow, rrows[k])
            && |FlatMap(f, rrows[..k + 1])| <= |FlatMap(f, rrows)|
  {
    var f := NestFn(p, t, lrow);
    assert rrows[..k + 1][..k] == rrows[..k];
    FlatMapAppends(f, rrows[..k + 1], rrows[k + 1..]);
    assert rrows == rrows[..k + 1] + rrows[k + 1..];
  }

  lemma {:induction false} RowsAtGrows(p: Plan, t: Tree, all: seq<Combo>)
    ensures |RowsAt(p, t, all)| == |all| && forall i | 0 <= i < |all| :: RowsAt(p, t, all)[i] == RowAt(p, t, all[i])
  {
    if all != [] {
      RowsAtGrows(p, t, all[..|all| - 1]);
    }
  }

  /** Partners on the right, combined by number or as rows of leaves. */
  lemma {:induction false} PartnersMean(p: Plan, t: Tree, l: Combo, rs: seq<Combo>)
    requires t.Join? && UniqueIds(t) && NodeOk(t, p.s, p.home) && l.Keys == Leaves(t.left)
    requires forall r | r in rs :: r.Keys == Leaves(t.right)
    ensures var idxs := p.Info(t.id).rightTmp; var lrow := RowAt(p, t.left, l);
      FlatMap(NestFn(p, t, lrow), RowsAt(p, t.right, rs)) ==
      RowsAt(p, t, FlatMap((r: Combo) => if AllNull(RowAt(p, t.right, r), idxs) then [l + r] else [], rs))
  {
    if rs != [] {
      var n := |rs| - 1;
      PartnersMean(p, t, l, rs[..n]);
      JoinedRow(p, t, l, rs[n]);
      var idxs := p.Info(t.id).rightTmp;
      var f := (r: Combo) => if AllNull(RowAt(p, t.right, r), idxs) then [l + r] else [];
      RowsAtAppends(p, t, FlatMap(f, rs[..n]), f(rs[n]));
      RowsAtOne(p, t, l + rs[n]);
    }
  }

  lemma RowsAtAppends(p: Plan, t: Tree, a: seq<Combo>, b: seq<Combo>)
    ensures RowsAt(p, t, a + b) == RowsAt(p, t, a) + RowsAt(p, t, b)
  {
    FlatMapAppends((rows: Combo) => [RowAt(p, t, rows)], a, b);
  }

  lemma RowsAtOne(p: Plan, t: Tree, rows: Combo)
    ensures RowsAt(p, t, [rows]) == [RowAt(p, t, rows)] && RowsAt(p, t, []) == []
  {
    RowsAtGrows(p, t, [rows]);
  }

  /** The right side of a join for one left row. */
  ghost function RightOf(p: Plan, t: Tree, outer: Combo, l: Combo): seq<Combo>
    requires t.Join?
  {
    if AllTrue(RowAt(p, t.left, l), p.Info(t.id).leftTmp) then Meaning(p, t.right, outer + l) else []
  }

  lemma OneMeans(p: Plan, t: Tree, outer: Combo, l: Combo)
    requires t.Join? && UniqueIds(t) && NodeOk(t, p.s, p.home) && l.Keys == Leaves(t.left)
    ensures NestOne(p, t, RowAt(p, t.left, l), RowsAt(p, t.right, RightOf(p, t, outer, l))) ==
            RowsAt(p, t, MeaningOne(p, t, outer, l))
  {
    var rs := RightOf(p, t, outer, l);
    RowsAtGrows(p, t.right, rs);
    if rs == [] {
      PaddedRow(p, t, l);
      RowsAtOne(p, t, l + Padding(t.right));
    } else {
      forall r | r in rs ensures r.Keys == Leaves(t.right) {
        MeaningKeys(p, t.right, outer + l, r);
      }
      PartnersMean(p, t, l, rs);
    }
  }

  // ----- The executor ---------------------------------------------------------------------------------

  lemma LeafMeans(p: Plan, t: Tree, recs: seq<Rec>)
    requires t.Leaf?
    ensures FlatMap((rec: Rec) => [RowAt(p, t, Single(t.id, rec))], recs) ==
            RowsAt(p, t, FlatMap((rec: Rec) => [Single(t.id, rec)], recs))
  {
    if recs != [] {
      var n := |recs| - 1;
      LeafMeans(p, t, recs[..n]);
      RowsAtAppends(p, t, FlatMap((rec: Rec) => [Single(t.id, rec)], recs[..n]), [Single(t.id, recs[n])]);
      RowsAtOne(p, t, Single(t.id, recs[n]));
    }
  }

  /** The values that the query of a leaf gets for its variables; none is missing. */
  method GenerateQuery(p: Plan, t: Tree, bind: map<string, Value>, ghost outer: Combo)
    returns (params: map<Item, Value>)
    requires t.Leaf? && Agrees(p, t, bind, outer)
    ensures params == Params(p, t.id, outer)
  {
    params := map[];
    var cols := p.s.Uses(t.id);
    for i := 0 to |cols|
      invariant params.Keys == set k | 0 <= k < i && Elsewhere(p, t.id, cols[k]) :: ColumnItem(cols[k])
      invariant forall item | item in params :: params[item] == Lookup(p.home, outer, item)
    {
      if Elsewhere(p, t.id, cols[i]) {
        assert t.id in Leaves(t) && !Under(cols[i], t, p.home);
        assert BoundTo(p, bind, outer, p.s.Uses(t.id)[i]);
        params := params[ColumnItem(cols[i]) := bind[VarName(cols[i])]];
      }
    }
  }

  /** No join below t, for any rows to the left of it, returns more rows than the limit. */
  ghost predicate Fits(p: Plan, t: Tree, outer: Combo, maxrow: int)
    decreases t
  {
    t.Join? ==>
      && Fits(p, t.left, outer, maxrow)
      && (forall l | l in Meaning(p, t.left, outer) && AllTrue(RowAt(p, t.left, l), p.Info(t.id).leftTmp) ::
            Fits(p, t.right, outer + l, maxrow))
      && Small(|Meaning(p, t, outer)|, maxrow)
  }

  /**
    Runs a subtree under the variables of the joins above it. The rows are those that the tree stands
    for: whatever a query mentions of another leaf has the value of the current row of that leaf. It fails
    exactly when a join returns more rows than the limit.
  */
  method ExecBindVars(p: Plan, t: Tree, bind: map<string, Value>, maxrow: int, ghost outer: Combo)
    returns (r: Option<seq<Row>>)
    requires p.Ready() && Within(t, p.root) && Agrees(p, t, bind, outer)
    ensures r.Some? <==> Fits(p, t, outer, maxrow)
    ensures r.Some? ==> r.value == RowsAt(p, t, Meaning(p, t, outer))
    decreases t
  {
    if t.Leaf? {
      var params := GenerateQuery(p, t, bind, outer);
      var recs := p.data(t.id, params);
      LeafMeans(p, t, recs);
      return Some(FlatMap((rec: Rec) => [RowAt(p, t, Single(t.id, rec))], recs));
    }
    SubtreeReady(p, t);
    AgreesLeft(p, t, bind, outer);
    var lrows := ExecBindVars(p, t.left, bind, maxrow, outer);
    if lrows.None? {
      return None;
    }
    r := ExecRows(p, t, bind, lrows.value, maxrow, outer);
  }

  /** The current rows of the leaves to the left of t, and one of those of its left side. */
  ghost predicate RightFits(p: Plan, t: Tree, outer: Combo, l: Combo, maxrow: int)
    requires t.Join?
  {
    AllTrue(RowAt(p, t.left, l), p.Info(t.id).leftTmp) ==> Fits(p, t.right, outer + l, maxrow)
  }

  /** A join of the plan, under variables for what it asks from outside. */
  ghost predicate Runs(p: Plan, t: Tree, bind: map<string, Value>, outer: Combo) {
    && p.Ready() && Within(t, p.root) && t.Join? && Agrees(p, t, bind, outer)
    && UniqueIds(t) && NodeOk(t, p.s, p.home) && Within(t.right, p.root)
  }

  lemma OneAdded(rows: seq<Row>, one: seq<Row>, all: seq<Row>, maxrow: int, fits: bool, r: Option<seq<Row>>)
    requires Adds(rows, one, maxrow, fits, r) && all == rows + one
    ensures r.Some? ==> fits && Small(|all|, maxrow) && r.value == all
    ensures r.None? ==> !fits || !Small(|all|, maxrow)
  {
  }

  /** The rows for the first left rows, which are within the limit. */
  ghost predicate Done(p: Plan, t: Tree, outer: Combo, ls: seq<Combo>, n: nat, maxrow: int, rows: seq<Row>)
    requires t.Join? && n <= |ls|
  {
    && rows == MeantRows(p, t, outer, ls[..n]) && Small(|rows|, maxrow)
    && forall k | 0 <= k < n :: RightFits(p, t, outer, ls[k], maxrow)
  }

  lemma DoneNext(p: Plan, t: Tree, outer: Combo, ls: seq<Combo>, i: nat, maxrow: int, rows: seq<Row>,
                 more: Option<seq<Row>>)
    requires t.Join? && ls == Meaning(p, t.left, outer) && i < |ls| && Done(p, t, outer, ls, i, maxrow, rows)
    requires Adds(rows, RowsAt(p, t, MeaningOne(p, t, outer, ls[i])), maxrow, RightFits(p, t, outer, ls[i], maxrow),
                  more)
    ensures more.Some? ==> Done(p, t, outer, ls, i + 1, maxrow, more.value)
    ensures more.None? ==> !Fits(p, t, outer, maxrow)
  {
    MeaningNext(p, t, outer, ls, i);
    OneAdded(rows, RowsAt(p, t, MeaningOne(p, t, outer, ls[i])), MeantRows(p, t, outer, ls[..i + 1]), maxrow,
             RightFits(p, t, outer, ls[i], maxrow), more);
    if more.None? {
      OverLimit(p, t, outer, ls, i, maxrow);
    }
  }

  /** The loop over the left rows. */
  method ExecRows(p: Plan, t: Tree, bind: map<string, Value>, lrows: seq<Row>, maxrow: int, ghost outer: Combo)
    returns (r: Option<seq<Row>>)
    requires Runs(p, t, bind, outer)
    requires lrows == RowsAt(p, t.left, Meaning(p, t.left, outer)) && Fits(p, t.left, outer, maxrow)
    ensures r.Some? <==> Fits(p, t, outer, maxrow)
    ensures r.Some? ==> r.value == RowsAt(p, t, Meaning(p, t, outer))
    decreases t, 2
  {
    ghost var ls := Meaning(p, t.left, outer);
    RowsAtGrows(p, t.left, ls);
    var rows: seq<Row> := [];
    MeaningStarts(p, t, outer, ls);
    for i := 0 to |lrows|
      invariant Done(p, t, outer, ls, i, maxrow, rows)
    {
      MeaningKeys(p, t.left, outer, ls[i]);
      var more := ExecRow(p, t, bind, lrows[i], rows, maxrow, outer, ls[i]);
      DoneNext(p, t, outer, ls, i, maxrow, rows, more);
      if more.None? {
        return None;
      }
      rows := more.value;
    }
    AllFit(p, t, outer, ls, maxrow);
    r := Some(rows);
  }

  /** The rows of the right side for one left row. */
  method ExecRight(p: Plan, t: Tree, bind: map<string, Value>, lrow: Row, maxrow: int, ghost outer: Combo,
                   ghost l: Combo)
    returns (r: Option<seq<Row>>)
    requires Runs(p, t, bind, outer) && l.Keys == Leaves(t.left) && lrow == RowAt(p, t.left, l)
    ensures r.Some? <==> RightFits(p, t, outer, l, maxrow)
    ensures r.Some? ==> r.value == RowsAt(p, t.right, RightOf(p, t, outer, l))
    decreases t, 0
  {
    if AllTrue(lrow, p.Info(t.id).leftTmp) {
      AgreesRight(p, t, bind, outer, l);
      r := ExecBindVars(p, t.right, bind + JoinVars(p, t, lrow), maxrow, outer + l);
    } else {
      RowsAtOne(p, t.right, l);
      r := Some([]);
    }
  }

  /** The part of the loop for one left row. */
  method ExecRow(p: Plan, t: Tree, bind: map<string, Value>, lrow: Row, rows: seq<Row>, maxrow: int,
                 ghost outer: Combo, ghost l: Combo)
    returns (r: Option<seq<Row>>)
    requires Runs(p, t, bind, outer) && l.Keys == Leaves(t.left) && lrow == RowAt(p, t.left, l)
    requires Small(|rows|, maxrow)
    ensures Adds(rows, RowsAt(p, t, MeaningOne(p, t, outer, l)), maxrow, RightFits(p, t, outer, l, maxrow), r)
    decreases t, 1
  {
    OneMeans(p, t, outer, l);
    var rrows := ExecRight(p, t, bind, lrow, maxrow, outer, l);
    if rrows.None? {
      return None;
    }
    r := JoinOneRow(p, t, lrow, rrows.value, rows, maxrow);
  }

  ghost function OneFn(p: Plan, t: Tree, outer: Combo): Combo -> seq<Combo>
    requires t.Join?
  {
    (l: Combo) => MeaningOne(p, t, outer, l)
  }

  /** The rows of a join for some rows of its left side. */
  ghost function MeantRows(p: Plan, t: Tree, outer: Combo, ls: seq<Combo>): seq<Row>
    requires t.Join?
  {
    RowsAt(p, t, FlatMap(OneFn(p, t, outer), ls))
  }

  lemma MeaningStarts(p: Plan, t: Tree, outer: Combo, ls: seq<Combo>)
    requires t.Join? && ls == Meaning(p, t.left, outer)
    ensures MeantRows(p, t, outer, ls[..0]) == [] && ls[..|ls|] == ls
    ensures MeantRows(p, t, outer, ls) == RowsAt(p, t, Meaning(p, t, outer))
    ensures |MeantRows(p, t, outer, ls)| == |Meaning(p, t, outer)|
  {
    FlatMapAgrees((l: Combo) => MeaningOne(p, t, outer, l), OneFn(p, t, outer), ls);
    RowsAtGrows(p, t, Meaning(p, t, outer));
    RowsAtGrows(p, t, []);
  }

  /** A failure for one left row is a failure of the join. */
  lemma OverLimit(p: Plan, t: Tree, outer: Combo, ls: seq<Combo>, i: nat, maxrow: int)
    requires t.Join? && ls == Meaning(p, t.left, outer) && i < |ls|
    requires !RightFits(p, t, outer, ls[i], maxrow) || !Small(|MeantRows(p, t, outer, ls[..i + 1])|, maxrow)
    ensures !Fits(p, t, outer, maxrow)
  {
    if !Small(|MeantRows(p, t, outer, ls[..i + 1])|, maxrow) {
      MeaningStarts(p, t, outer, ls);
      FlatMapAppends(OneFn(p, t, outer), ls[..i + 1], ls[i + 1..]);
      assert ls == ls[..i + 1] + ls[i + 1..];
      RowsAtAppends(p, t, FlatMap(OneFn(p, t, outer), ls[..i + 1]), FlatMap(OneFn(p, t, outer), ls[i + 1..]));
    } else {
      assert ls[i] in ls;
    }
  }

  lemma AllFit(p: Plan, t: Tree, outer: Combo, ls: seq<Combo>, maxrow: int)
    requires t.Join? && ls == Meaning(p, t.left, outer) && Fits(p, t.left, outer, maxrow)
    requires Small(|MeantRows(p, t, outer, ls)|, maxrow)
    requires forall k | 0 <= k < |ls| :: RightFits(p, t, outer, ls[k], maxrow)
    ensures Fits(p, t, outer, maxrow)
  {
    MeaningStarts(p, t, outer, ls);
    forall l | l in ls && AllTrue(RowAt(p, t.left, l), p.Info(t.id).leftTmp)
      ensures Fits(p, t.right, outer + l, maxrow)
    {
      var k :| 0 <= k < |ls| && ls[k] == l;
      assert RightFits(p, t, outer, ls[k], maxrow);
    }
  }

  lemma MeaningNext(p: Plan, t: Tree, outer: Combo, ls: seq<Combo>, i: nat)
    requires t.Join? && i < |ls|
    ensures MeantRows(p, t, outer, ls[..i + 1]) ==
            MeantRows(p, t, outer, ls[..i]) + RowsAt(p, t, MeaningOne(p, t, outer, ls[i]))
  {
    var f := OneFn(p, t, outer);
    assert ls[..i + 1][..i] == ls[..i];
    RowsAtAppends(p, t, FlatMap(f, ls[..i]), f(ls[i]));
  }

  lemma {:induction false} SubtreeReady(p: Plan, t: Tree)
    requires p.Ready() && Within(t, p.root) && t.Join?
    ensures UniqueIds(t) && Ordered(t, p.order) && NodeOk(t, p.s, p.home) && Within(t.left, p.root)
    ensures Within(t.right, p.root)
  {
    WithinHasIds(t, p.root);
    SubtreeParts(p.root, t, p.s, p.home, p.order);
  }

  lemma {:induction false} SubtreeParts(h: Tree, t: Tree, s: State, home: Home, order: map<nat, nat>)
    requires Within(t, h) && t.Join? && FieldsOk(h, s, home) && Ordered(h, order)
    ensures NodeOk(t, s, home) && Ordered(t, order) && Within(t.left, h) && Within(t.right, h)
  {
    if t != h {
      if Within(t, h.left) {
        SubtreeParts(h.left, t, s, home, order);
      } else {
        SubtreeParts(h.right, t, s, home, order);
      }
    }
  }

  /**
    Printing the queries of a plan and running it gives what the tree of joins stands for, unless a join returns
    more rows than the limit.
  */
  method PlanAndRun(planner: Planner, joins: map<nat, JoinInfo>, data: (nat, map<Item, Value>) -> seq<Rec>,
                    maxrow: int)
    returns (r: Option<seq<Row>>)
    requires planner.Valid() && planner.PrintedOk() && planner.printed == []
    modifies planner`s, planner`printed
    ensures planner.Valid() && planner.s.Fields(planner.root.id) == old(planner.s).Fields(planner.root.id)
    ensures var p := Plan(planner.root, planner.home, planner.order, planner.s, planner.all, joins, data);
            && p.Ready() && (r.Some? <==> Fits(p, p.root, map[], maxrow))
            && (r.Some? ==> r.value == RowsAt(p, p.root, Meaning(p, p.root, map[])))
  {
    planner.BuildAll();
    var p := Plan(planner.root, planner.home, planner.order, planner.s, planner.all, joins, data);
    assert Agrees(p, p.root, map[], map[]) by {
      forall m, i | m in Leaves(p.root) && 0 <= i < |p.s.Uses(m)| ensures Under(p.s.Uses(m)[i], p.root, p.home) {
        UseIsBound(p, p.root, m, i);
      }
    }
    r := ExecBindVars(p, p.root, map[], maxrow, map[]);
  }
}
