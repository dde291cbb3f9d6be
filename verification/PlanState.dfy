/** What the nodes of a plan return: their fields, where these come from, and what the queries of the leaves mention. */
module PlanState {
  import opened SqlExpr
  import opened PlanTree

  /** A returned field: a column, or an expression over columns. */
  datatype Field = ColField(col: ColName) | ExprField(text: string, cols: seq<ColName>, isFunc: bool) {
    function Cols(): seq<ColName> { if ColField? then [col] else cols }
  }

  /**
    The attributes of the nodes. `cols` says for each field of a join which field of its sides it is:
    -1, -2, ... count the fields of the left side, 1, 2, ... those of the right one. `vars` gives the
    field of the left side that a join variable takes its value from. `uses` are the columns that the
    query of a leaf mentions.
  */
  datatype State = State(fields: map<nat, seq<Field>>, cols: map<nat, seq<int>>, vars: map<nat, map<string, nat>>,
                         uses: map<nat, seq<ColName>>) {
    function Fields(id: nat): seq<Field> { if id in fields then fields[id] else [] }
    function Cols(id: nat): seq<int> { if id in cols then cols[id] else [] }
    function Vars(id: nat): map<string, nat> { if id in vars then vars[id] else map[] }
    function Uses(id: nat): seq<ColName> { if id in uses then uses[id] else [] }
  }

  /** A condition of the statement, by number, and the columns it is about. */
  datatype Cond = Cond(id: nat, cols: seq<ColName>)

  /** The conditions in the queries of the leaves. */
  type Conds = map<nat, seq<Cond>>

  function CondsAt(conds: Conds, id: nat): seq<Cond> { if id in conds then conds[id] else [] }

  /** A query mentions the columns of its conditions. */
  ghost predicate CondsOk(h: Tree, s: State, conds: Conds) {
    forall m, c, i | m in Leaves(h) && c in CondsAt(conds, m) && 0 <= i < |c.cols| :: c.cols[i] in s.Uses(m)
  }

  /** A query mentions the columns of the fields that it returns. */
  ghost predicate UsesOk(h: Tree, s: State) {
    forall m | m in Leaves(h) :: AllMentioned(s.Fields(m), s.Uses(m))
  }

  predicate AllMentioned(fields: seq<Field>, uses: seq<ColName>) {
    forall k | 0 <= k < |fields| :: ColsMentioned(fields[k].Cols(), uses)
  }

  predicate ColsMentioned(cols: seq<ColName>, uses: seq<ColName>) {
    forall i | 0 <= i < |cols| :: cols[i] in uses
  }

  /** The conditions in the queries are these and no others. */
  ghost predicate Carries(h: Tree, conds: Conds, pushed: seq<Cond>) {
    forall c :: c in pushed <==> CarriedBy(h, conds, c)
  }

  ghost predicate CarriedBy(h: Tree, conds: Conds, c: Cond) {
    exists m :: m in Leaves(h) && c in CondsAt(conds, m)
  }

  /** The leaf that a table belongs to. */
  type Home = map<string, nat>

  predicate Under(col: ColName, t: Tree, home: Home) {
    col.table in home && home[col.table] in Leaves(t)
  }

  predicate AllUnder(cols: seq<ColName>, t: Tree, home: Home) {
    forall i | 0 <= i < |cols| :: Under(cols[i], t, home)
  }

  /** The leaf that an expression is sent to. */
  function Dest(t: Tree, cols: seq<ColName>, home: Home): (leaf: nat)
    ensures leaf in Leaves(t)
  {
    if t.Leaf? then t.id
    else if AllUnder(cols, t.left, home) then Dest(t.left, cols, home) else Dest(t.right, cols, home)
  }

  lemma {:induction false} DestOfColumn(t: Tree, col: ColName, home: Home)
    requires UniqueIds(t) && Under(col, t, home)
    ensures Dest(t, [col], home) == home[col.table]
  {
    if t.Join? {
      assert [col][0] == col;
      if Under(col, t.left, home) {
        DestOfColumn(t.left, col, home);
      } else {
        DestOfColumn(t.right, col, home);
      }
    }
  }

  /** No column of an expression belongs to a later leaf than the one it is sent to. */
  lemma {:induction false} DestIsLast(t: Tree, cols: seq<ColName>, home: Home, order: map<nat, nat>, i: nat)
    requires UniqueIds(t) && Ordered(t, order) && i < |cols| && Under(cols[i], t, home)
    ensures order[home[cols[i].table]] <= order[Dest(t, cols, home)]
  {
    if t.Join? {
      if AllUnder(cols, t.left, home) {
        DestIsLast(t.left, cols, home, order, i);
      } else if Under(cols[i], t.right, home) {
        DestIsLast(t.right, cols, home, order, i);
      }
    }
  }

  /** The smallest subtree with all the columns. */
  function Span(t: Tree, cols: seq<ColName>, home: Home): Tree {
    if t.Leaf? then t
    else if AllUnder(cols, t.left, home) then Span(t.left, cols, home)
    else if AllUnder(cols, t.right, home) then Span(t.right, cols, home)
    else t
  }

  function LastOfTree(t: Tree): nat { if t.Leaf? then t.id else LastOfTree(t.right) }

  predicate Mentions(cols: seq<ColName>, home: Home, leaf: nat) {
    exists i | 0 <= i < |cols| :: cols[i].table in home && home[cols[i].table] == leaf
  }

  lemma {:induction false} DestOutside(t: Tree, cols: seq<ColName>, home: Home)
    requires !AllUnder(cols, t, home)
    ensures Dest(t, cols, home) == LastOfTree(t)
  {
    if t.Join? {
      var i :| 0 <= i < |cols| && !Under(cols[i], t, home);
      assert !Under(cols[i], t.left, home) && !Under(cols[i], t.right, home);
      DestOutside(t.right, cols, home);
    }
  }

  /** An expression is sent to the last leaf of the smallest subtree with all its columns, mentioned or not. */
  lemma {:induction false} DestIsLastOfSpan(t: Tree, cols: seq<ColName>, home: Home)
    ensures Dest(t, cols, home) == LastOfTree(Span(t, cols, home))
  {
    if t.Join? {
      if AllUnder(cols, t.left, home) {
        DestIsLastOfSpan(t.left, cols, home);
      } else if AllUnder(cols, t.right, home) {
        DestIsLastOfSpan(t.right, cols, home);
      } else {
        DestOutside(t.right, cols, home);
      }
    }
  }

  /** That leaf is a mentioned one at least when the subtree is a leaf or has one leaf on its right. */
  lemma {:induction false} DestIsMentioned(t: Tree, cols: seq<ColName>, home: Home)
    requires cols != [] && AllUnder(cols, t, home)
    requires Span(t, cols, home).Leaf? || Span(t, cols, home).right.Leaf?
    ensures Mentions(cols, home, Dest(t, cols, home))
  {
    if t.Leaf? {
      assert Under(cols[0], t, home);
    } else if AllUnder(cols, t.left, home) {
      DestIsMentioned(t.left, cols, home);
    } else if AllUnder(cols, t.right, home) {
      DestIsMentioned(t.right, cols, home);
    } else {
      var i :| 0 <= i < |cols| && !Under(cols[i], t.left, home);
      assert Under(cols[i], t, home);
    }
  }

  /** In A join (B join C) an expression over A and B is sent to C, which it does not mention. */
  lemma SentToUnmentioned()
    ensures var t := PlanTree.Join(0, Leaf(1), PlanTree.Join(2, Leaf(3), Leaf(4)));
            var home := map["a" := 1, "b" := 3, "c" := 4];
            var cols := [ColName("x", "a"), ColName("y", "b")];
            Dest(t, cols, home) == 4 && !Mentions(cols, home, 4)
  {
    var t := PlanTree.Join(0, Leaf(1), PlanTree.Join(2, Leaf(3), Leaf(4)));
    var home := map["a" := 1, "b" := 3, "c" := 4];
    var cols := [ColName("x", "a"), ColName("y", "b")];
    assert !Under(cols[1], t.left, home) && !Under(cols[0], t.right.left, home);
    assert Dest(t.right, cols, home) == 4;
  }

  // ----- Fields are where the joins expect them ------------------------------------------------

  /** Field f of a join is field number c of one of its sides. */
  predicate ColOk(t: Tree, s: State, home: Home, f: Field, c: int)
    requires t.Join?
  {
    if AllUnder(f.Cols(), t.left, home) then
      c < 0 && -c - 1 < |s.Fields(t.left.id)| && s.Fields(t.left.id)[-c - 1] == f
    else
      c > 0 && c - 1 < |s.Fields(t.right.id)| && s.Fields(t.right.id)[c - 1] == f
  }

  predicate NodeOk(t: Tree, s: State, home: Home)
    requires t.Join?
  {
    && |s.Cols(t.id)| == |s.Fields(t.id)|
    && forall i | 0 <= i < |s.Fields(t.id)| :: ColOk(t, s, home, s.Fields(t.id)[i], s.Cols(t.id)[i])
  }

  predicate FieldsOk(t: Tree, s: State, home: Home) {
    t.Join? ==> FieldsOk(t.left, s, home) && FieldsOk(t.right, s, home) && NodeOk(t, s, home)
  }

  /** Nothing changed at a node. */
  predicate Same(s: State, s': State, id: nat) {
    s.Fields(id) == s'.Fields(id) && s.Cols(id) == s'.Cols(id) && s.Uses(id) == s'.Uses(id)
  }

  /** Fields are only added, so the number of a field stays. */
  ghost predicate Extends(s: State, s': State) {
    forall id: nat :: s.Fields(id) <= s'.Fields(id)
  }

  lemma {:induction false} FieldsFrame(t: Tree, s: State, s': State, home: Home)
    requires FieldsOk(t, s, home) && forall id | id in Ids(t) :: Same(s, s', id)
    ensures FieldsOk(t, s', home)
  {
    if t.Join? {
      FieldsFrame(t.left, s, s', home);
      FieldsFrame(t.right, s, s', home);
      assert Same(s, s', t.id) && Same(s, s', t.left.id) && Same(s, s', t.right.id);
    }
  }

  lemma NodeExtends(t: Tree, s: State, s': State, home: Home)
    requires t.Join? && NodeOk(t, s, home) && Same(s, s', t.id) && Extends(s, s')
    ensures NodeOk(t, s', home)
  {
    assert s.Fields(t.left.id) <= s'.Fields(t.left.id) && s.Fields(t.right.id) <= s'.Fields(t.right.id);
    forall i | 0 <= i < |s'.Fields(t.id)| ensures ColOk(t, s', home, s'.Fields(t.id)[i], s'.Cols(t.id)[i]) {
      assert ColOk(t, s, home, s.Fields(t.id)[i], s.Cols(t.id)[i]);
    }
  }

  /** A field was added to a subtree: on the way down to one leaf, and nowhere else. */
  ghost predicate Grew(t: Tree, s: State, s': State, home: Home, f: Field) {
    && Extends(s, s') && s'.vars == s.vars
    && (forall id | id !in Ids(t) :: Same(s, s', id))
    && (forall id | id in Leaves(t) && id != Dest(t, f.Cols(), home) :: Same(s, s', id))
    && s'.Fields(t.id) == s.Fields(t.id) + [f]
    && s'.Fields(Dest(t, f.Cols(), home)) == s.Fields(Dest(t, f.Cols(), home)) + [f]
    && s'.Uses(Dest(t, f.Cols(), home)) == s.Uses(Dest(t, f.Cols(), home)) + f.Cols()
  }

  /** Adding to a subtree keeps the whole tree in order. */
  lemma {:induction false} WholeOk(h: Tree, t: Tree, s: State, s': State, home: Home, f: Field)
    requires UniqueIds(h) && Within(t, h) && FieldsOk(h, s, home) && FieldsOk(t, s', home) && Grew(t, s, s', home, f)
    ensures FieldsOk(h, s', home)
  {
    if h != t {
      if Within(t, h.left) {
        WithinHasIds(t, h.left);
        WholeOk(h.left, t, s, s', home, f);
        FieldsFrame(h.right, s, s', home);
      } else {
        WithinHasIds(t, h.right);
        WholeOk(h.right, t, s, s', home, f);
        FieldsFrame(h.left, s, s', home);
      }
      NodeExtends(h, s, s', home);
    }
  }

  // ----- Join variables ------------------------------------------------------------------------------

  /** Column names that may stand next to an underscore: names of join variables must not clash. */
  function VarName(col: ColName): string { col.table + "_" + col.name }

  ghost predicate NamesDiffer(cols: set<ColName>) {
    forall a, b | a in cols && b in cols && VarName(a) == VarName(b) :: SameCol(a, b)
  }

  /** The variable stands for a column of the left side and takes it from the field that holds it. */
  ghost predicate VarOk(t: Tree, s: State, home: Home, all: set<ColName>, name: string, index: nat)
    requires t.Join?
  {
    && index < |s.Fields(t.left.id)| && s.Fields(t.left.id)[index].ColField?
    && exists col ::
         && col in all && VarName(col) == name && Under(col, t.left, home)
         && SameCol(col, s.Fields(t.left.id)[index].col)
  }

  ghost predicate VarsOk(h: Tree, s: State, home: Home, all: set<ColName>) {
    forall t, name | Within(t, h) && t.Join? && name in s.Vars(t.id) :: VarOk(t, s, home, all, name, s.Vars(t.id)[name])
  }

  lemma VarsExtend(h: Tree, s: State, s': State, home: Home, all: set<ColName>)
    requires VarsOk(h, s, home, all) && Extends(s, s') && s'.vars == s.vars
    ensures VarsOk(h, s', home, all)
  {
    forall t, name | Within(t, h) && t.Join? && name in s'.Vars(t.id)
      ensures VarOk(t, s', home, all, name, s'.Vars(t.id)[name]) {
      assert VarOk(t, s, home, all, name, s.Vars(t.id)[name]);
      assert s.Fields(t.left.id) <= s'.Fields(t.left.id);
    }
  }

  // ----- What the queries mention -------------------------------------------------------------------

  /** The column is of the leaf or of an earlier one. */
  ghost predicate Reachable(h: Tree, home: Home, order: map<nat, nat>, m: nat, col: ColName)
    requires Ordered(h, order) && m in Leaves(h)
  {
    Under(col, h, home) && (home[col.table] == m || order[home[col.table]] < order[m])
  }

  ghost predicate AllReachable(h: Tree, home: Home, order: map<nat, nat>, all: set<ColName>, m: nat, cols: seq<ColName>)
    requires Ordered(h, order) && m in Leaves(h)
  {
    forall i | 0 <= i < |cols| :: cols[i] in all && Reachable(h, home, order, m, cols[i])
  }

  ghost predicate Scoped(h: Tree, s: State, home: Home, order: map<nat, nat>, all: set<ColName>)
    requires Ordered(h, order)
  {
    forall m | m in Leaves(h) :: AllReachable(h, home, order, all, m, s.Uses(m))
  }

  /** The attributes of the nodes fit together. */
  ghost predicate PlanOk(h: Tree, s: State, home: Home, order: map<nat, nat>, all: set<ColName>)
    requires Ordered(h, order)
  {
    FieldsOk(h, s, home) && VarsOk(h, s, home, all) && Scoped(h, s, home, order, all) && UsesOk(h, s)
  }

  /** Nothing changed at the root and at the leaves but one. */
  ghost predicate Untouched(h: Tree, s: State, s': State, leaf: nat) {
    forall id | (id in Leaves(h) || id == h.id) && id != leaf :: Same(s, s', id)
  }

  /** A field of a node is a field of the leaf that it was sent to. */
  lemma {:induction false} FieldIsAtLeaf(t: Tree, s: State, home: Home, f: Field)
    requires FieldsOk(t, s, home) && f in s.Fields(t.id)
    ensures f in s.Fields(Dest(t, f.Cols(), home))
  {
    if t.Join? {
      var i :| 0 <= i < |s.Fields(t.id)| && s.Fields(t.id)[i] == f;
      assert ColOk(t, s, home, f, s.Cols(t.id)[i]);
      if AllUnder(f.Cols(), t.left, home) {
        FieldIsAtLeaf(t.left, s, home, f);
      } else {
        FieldIsAtLeaf(t.right, s, home, f);
      }
    }
  }

  /** The query of leaf m names a variable of the join where the column and m meet. */
  ghost predicate Bound(h: Tree, s: State, home: Home, m: nat, col: ColName) {
    Under(col, h, home) && (home[col.table] == m ||
      var a := FindLCA(h, home[col.table], m); a.Some? && VarName(col) in s.Vars(a.value.id))
  }

  ghost predicate AllBound(h: Tree, s: State, home: Home, m: nat) {
    forall i | 0 <= i < |s.Uses(m)| :: Bound(h, s, home, m, s.Uses(m)[i])
  }
}
