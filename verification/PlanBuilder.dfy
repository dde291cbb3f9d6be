/** Sending expressions down the plan tree and printing the queries of its leaves. */
module PlanBuilder {
  import opened Prelude
  import opened SqlExpr
  import opened PlanTree
  import opened PlanState

  function WithLeafField(s: State, id: nat, f: Field): State {
    s.(fields := s.fields[id := s.Fields(id) + [f]], uses := s.uses[id := s.Uses(id) + f.Cols()])
  }

  function WithJoinField(s: State, id: nat, f: Field, c: int): State {
    s.(fields := s.fields[id := s.Fields(id) + [f]], cols := s.cols[id := s.Cols(id) + [c]])
  }

  /** The side of a join that an expression is sent to, and the number of its field there. */
  function SideOf(t: Tree, f: Field, home: Home): Tree
    requires t.Join?
  {
    if AllUnder(f.Cols(), t.left, home) then t.left else t.right
  }

  function ColOf(t: Tree, f: Field, home: Home, index: nat): int
    requires t.Join?
  {
    if AllUnder(f.Cols(), t.left, home) then -(index as int) - 1 else index as int + 1
  }

  /** After a side of a join got a field, the join gets it. */
  lemma JoinGrew(t: Tree, s: State, s': State, home: Home, f: Field)
    requires UniqueIds(t) && t.Join? && FieldsOk(t, s, home)
    requires Grew(SideOf(t, f, home), s, s', home, f) && FieldsOk(SideOf(t, f, home), s', home)
    ensures var s'' := WithJoinField(s', t.id, f, ColOf(t, f, home, |s.Fields(SideOf(t, f, home).id)|));
            Grew(t, s, s'', home, f) && FieldsOk(t, s'', home)
  {
    var side := SideOf(t, f, home);
    var c := ColOf(t, f, home, |s.Fields(side.id)|);
    SidesGrew(t, s, s', home, f);
    JoinChanges(t, s', home, f, c);
    NodeGrew(t, s, s', home, f, c);
    GrewUp(t, s, s', home, f, c);
  }

  lemma SidesGrew(t: Tree, s: State, s': State, home: Home, f: Field)
    requires UniqueIds(t) && t.Join? && FieldsOk(t, s, home)
    requires Grew(SideOf(t, f, home), s, s', home, f) && FieldsOk(SideOf(t, f, home), s', home)
    ensures FieldsOk(t.left, s', home) && FieldsOk(t.right, s', home) && Same(s, s', t.id)
    ensures ColOk(t, s', home, f, ColOf(t, f, home, |s.Fields(SideOf(t, f, home).id)|))
  {
    if SideOf(t, f, home) == t.left {
      FieldsFrame(t.right, s, s', home);
    } else {
      FieldsFrame(t.left, s, s', home);
    }
  }

  lemma JoinChanges(t: Tree, s: State, home: Home, f: Field, c: int)
    requires UniqueIds(t) && t.Join? && FieldsOk(t.left, s, home) && FieldsOk(t.right, s, home)
    ensures FieldsOk(t.left, WithJoinField(s, t.id, f, c), home)
    ensures FieldsOk(t.right, WithJoinField(s, t.id, f, c), home)
  {
    FieldsFrame(t.left, s, WithJoinField(s, t.id, f, c), home);
    FieldsFrame(t.right, s, WithJoinField(s, t.id, f, c), home);
  }

  lemma NodeGrew(t: Tree, s: State, s': State, home: Home, f: Field, c: int)
    requires UniqueIds(t) && t.Join? && NodeOk(t, s, home) && Same(s, s', t.id) && Extends(s, s')
    requires ColOk(t, s', home, f, c)
    ensures NodeOk(t, WithJoinField(s', t.id, f, c), home)
  {
    NodeExtends(t, s, s', home);
    var s'' := WithJoinField(s', t.id, f, c);
    assert s''.Fields(t.left.id) == s'.Fields(t.left.id) && s''.Fields(t.right.id) == s'.Fields(t.right.id);
    forall i | 0 <= i < |s''.Fields(t.id)| ensures ColOk(t, s'', home, s''.Fields(t.id)[i], s''.Cols(t.id)[i]) {
      if i < |s'.Fields(t.id)| {
        assert ColOk(t, s', home, s'.Fields(t.id)[i], s'.Cols(t.id)[i]);
      }
    }
  }

  lemma GrewUp(t: Tree, s: State, s': State, home: Home, f: Field, c: int)
    requires UniqueIds(t) && t.Join? && Grew(SideOf(t, f, home), s, s', home, f)
    ensures Grew(t, s, WithJoinField(s', t.id, f, c), home, f)
  {
    var side := SideOf(t, f, home);
    var s'' := WithJoinField(s', t.id, f, c);
    assert Same(s, s', t.id);
    ExtendsUp(s, s', t.id, f, c);
    forall id | id != t.id ensures Same(s', s'', id) {
    }
    forall id | id !in Ids(t) ensures Same(s, s'', id) {
      assert id !in Ids(side) && Same(s, s', id) && Same(s', s'', id);
    }
    forall id | id in Leaves(t) && id != Dest(t, f.Cols(), home) ensures Same(s, s'', id) {
      assert Same(s, s', id) && Same(s', s'', id);
    }
    assert Same(s', s'', Dest(side, f.Cols(), home));
  }

  lemma ExtendsUp(s: State, s': State, id: nat, f: Field, c: int)
    requires Extends(s, s')
    ensures Extends(s, WithJoinField(s', id, f, c))
  {
    forall k: nat ensures s.Fields(k) <= WithJoinField(s', id, f, c).Fields(k) {
      assert s.Fields(k) <= s'.Fields(k);
    }
  }

  lemma LeafGrew(t: Tree, s: State, home: Home, f: Field)
    requires t.Leaf?
    ensures Grew(t, s, WithLeafField(s, t.id, f), home, f)
  {
  }

  // ----- Join variables --------------------------------------------------------------------------

  lemma {:induction false} SameIdSameTree(h: Tree, a: Tree, b: Tree)
    requires UniqueIds(h) && Within(a, h) && Within(b, h) && a.id == b.id
    ensures a == b
  {
    if a != h {
      Side(h, a, a.id);
    }
    if b != h {
      Side(h, b, b.id);
    }
    if a != h && b != h {
      if Within(a, h.left) {
        SameIdSameTree(h.left, a, b);
      } else {
        SameIdSameTree(h.right, a, b);
      }
    }
  }

  function WithVar(s: State, id: nat, name: string, index: nat): State {
    s.(vars := s.vars[id := s.Vars(id)[name := index]])
  }

  lemma VarAdded(h: Tree, j: Tree, s: State, home: Home, all: set<ColName>, name: string, index: nat)
    requires UniqueIds(h) && Within(j, h) && j.Join? && VarsOk(h, s, home, all) && VarOk(j, s, home, all, name, index)
    ensures VarsOk(h, WithVar(s, j.id, name, index), home, all)
  {
    var s' := WithVar(s, j.id, name, index);
    forall t, n | Within(t, h) && t.Join? && n in s'.Vars(t.id) ensures VarOk(t, s', home, all, n, s'.Vars(t.id)[n]) {
      if t.id == j.id {
        SameIdSameTree(h, t, j);
      }
      if t.id != j.id || n != name {
        assert VarOk(t, s, home, all, n, s.Vars(t.id)[n]);
      } else {
        assert VarOk(j, s, home, all, name, index);
      }
    }
  }

  lemma {:induction false} SideIsWithin(h: Tree, j: Tree)
    requires Within(j, h) && j.Join?
    ensures Within(j.left, h) && Within(j.right, h)
  {
    if j != h {
      if Within(j, h.left) {
        SideIsWithin(h.left, j);
      } else {
        SideIsWithin(h.right, j);
      }
    }
  }

  lemma VarIsOk(j: Tree, s: State, home: Home, all: set<ColName>, col: ColName, index: nat)
    requires j.Join? && col in all && Under(col, j.left, home)
    requires index < |s.Fields(j.left.id)| && s.Fields(j.left.id)[index].ColField?
    requires SameCol(col, s.Fields(j.left.id)[index].col)
    ensures VarOk(j, s, home, all, VarName(col), index)
  {
  }

  lemma {:induction false} FieldsIgnoreVars(h: Tree, s: State, home: Home, id: nat, name: string, index: nat)
    requires FieldsOk(h, s, home)
    ensures FieldsOk(h, WithVar(s, id, name, index), home)
  {
    FieldsFrame(h, s, WithVar(s, id, name, index), home);
  }

  lemma ScopedIgnoresVars(h: Tree, s: State, home: Home, order: map<nat, nat>, all: set<ColName>, id: nat,
                          name: string, index: nat)
    requires Ordered(h, order) && Scoped(h, s, home, order, all) && UsesOk(h, s)
    ensures Scoped(h, WithVar(s, id, name, index), home, order, all) && UsesOk(h, WithVar(s, id, name, index))
  {
    var s' := WithVar(s, id, name, index);
    forall m | m in Leaves(h)
      ensures AllReachable(h, home, order, all, m, s'.Uses(m)) && AllMentioned(s'.Fields(m), s'.Uses(m))
    {
      assert s'.Uses(m) == s.Uses(m) && s'.Fields(m) == s.Fields(m);
    }
  }

  lemma VarKeepsPlan(h: Tree, j: Tree, s: State, home: Home, order: map<nat, nat>, all: set<ColName>, col: ColName,
                     index: nat)
    requires UniqueIds(h) && Ordered(h, order) && PlanOk(h, s, home, order, all)
    requires Within(j, h) && j.Join? && col in all && Under(col, j.left, home)
    requires index < |s.Fields(j.left.id)| && s.Fields(j.left.id)[index].ColField?
    requires SameCol(col, s.Fields(j.left.id)[index].col)
    ensures PlanOk(h, WithVar(s, j.id, VarName(col), index), home, order, all)
  {
    VarIsOk(j, s, home, all, col, index);
    VarAdded(h, j, s, home, all, VarName(col), index);
    FieldsIgnoreVars(h, s, home, j.id, VarName(col), index);
    ScopedIgnoresVars(h, s, home, order, all, j.id, VarName(col), index);
  }

  lemma VarKeepsNodes(before: State, s: State, id: nat, name: string, index: nat)
    requires s.vars == before.vars
    ensures VarsGrew(before, WithVar(s, id, name, index))
    ensures forall k: nat :: Same(before, s, k) <==> Same(before, WithVar(s, id, name, index), k)
  {
  }

  lemma VarLeavesUntouched(h: Tree, before: State, s: State, leaf: nat, id: nat, name: string, index: nat)
    requires s.vars == before.vars && Untouched(h, before, s, leaf)
    ensures Untouched(h, before, WithVar(s, id, name, index), leaf)
    ensures VarsGrew(before, WithVar(s, id, name, index))
  {
    VarKeepsNodes(before, s, id, name, index);
  }

  /** Variables are never taken back. */
  ghost predicate VarsGrew(s: State, s': State) {
    forall id: nat, name | name in s.Vars(id) :: name in s'.Vars(id)
  }

  /** The first columns in the query of leaf m are printed. */
  ghost predicate BoundUpTo(h: Tree, s: State, home: Home, m: nat, n: nat) {
    n <= |s.Uses(m)| && forall i | 0 <= i < n :: Bound(h, s, home, m, s.Uses(m)[i])
  }

  lemma BoundStays(h: Tree, s: State, s': State, home: Home, m: nat, n: nat)
    requires BoundUpTo(h, s, home, m, n) && VarsGrew(s, s') && s'.Uses(m) == s.Uses(m)
    ensures BoundUpTo(h, s', home, m, n)
  {
    forall i | 0 <= i < n ensures Bound(h, s', home, m, s'.Uses(m)[i]) {
      assert Bound(h, s, home, m, s.Uses(m)[i]);
    }
  }

  ghost predicate AllPrinted(h: Tree, s: State, home: Home, printed: seq<nat>) {
    forall i | 0 <= i < |printed| :: printed[i] in Leaves(h) && AllBound(h, s, home, printed[i])
  }

  /** Each leaf is earlier than the one printed before it. */
  ghost predicate Downwards(printed: seq<nat>, order: map<nat, nat>) {
    && (forall i | 0 <= i < |printed| :: printed[i] in order)
    && (forall i, k | 0 <= i < k < |printed| :: order[printed[k]] < order[printed[i]])
  }

  lemma PrintedStays(h: Tree, s: State, s': State, home: Home, printed: seq<nat>, leaf: nat)
    requires AllPrinted(h, s, home, printed) && leaf !in printed && Untouched(h, s, s', leaf) && VarsGrew(s, s')
    ensures AllPrinted(h, s', home, printed)
  {
    forall i | 0 <= i < |printed| ensures AllBound(h, s', home, printed[i]) {
      assert Same(s, s', printed[i]);
      BoundStays(h, s, s', home, printed[i], |s.Uses(printed[i])|);
    }
  }

  /** One more column of m is printed, by a step that changed only the leaf of that column. */
  lemma ColumnPrinted(h: Tree, s: State, s': State, home: Home, printed: seq<nat>, m: nat, i: nat)
    requires m in Leaves(h) && i < |s.Uses(m)| && BoundUpTo(h, s, home, m, i) && AllPrinted(h, s, home, printed)
    requires var col := s.Uses(m)[i];
      && col.table in home && home[col.table] != m && home[col.table] != h.id && home[col.table] !in printed
      && Untouched(h, s, s', home[col.table]) && VarsGrew(s, s') && Bound(h, s', home, m, col)
    ensures AllPrinted(h, s', home, printed) && BoundUpTo(h, s', home, m, i + 1)
    ensures s'.Uses(m) == s.Uses(m) && s'.Fields(h.id) == s.Fields(h.id)
  {
    assert Same(s, s', m) && Same(s, s', h.id);
    PrintedStays(h, s, s', home, printed, home[s.Uses(m)[i].table]);
    BoundStays(h, s, s', home, m, i);
  }

  lemma PrintedGrows(h: Tree, s: State, home: Home, order: map<nat, nat>, printed: seq<nat>, m: nat)
    requires AllPrinted(h, s, home, printed) && Downwards(printed, order) && m in Leaves(h) && m in order
    requires BoundUpTo(h, s, home, m, |s.Uses(m)|) && ComesBefore({m}, printed, order)
    ensures AllPrinted(h, s, home, printed + [m]) && Downwards(printed + [m], order)
  {
    assert AllBound(h, s, home, m);
  }

  /** A leaf before one that is to be printed is not printed yet. */
  lemma NotPrinted(p: nat, m: nat, printed: seq<nat>, order: map<nat, nat>)
    requires ComesBefore({m}, printed, order) && p in order && m in order && order[p] < order[m]
    ensures p !in printed
  {
  }

  lemma {:induction false} RootIsAbove(h: Tree, j: Tree)
    requires UniqueIds(h) && Within(j, h) && j.Join?
    ensures h.id !in Ids(j.left)
  {
    if j != h {
      Side(h, j, j.id);
      WithinHasIds(j, if Within(j, h.left) then h.left else h.right);
    }
  }

  lemma RootIsNoLeaf(h: Tree, j: Tree, leaf: nat)
    requires UniqueIds(h) && Within(j, h) && j.Join? && leaf in Leaves(h)
    ensures h.id != leaf
  {
    LeavesAreNotJoins(h, leaf);
  }

  lemma UseIsReachable(h: Tree, s: State, home: Home, order: map<nat, nat>, all: set<ColName>, m: nat, i: nat)
    requires Ordered(h, order) && Scoped(h, s, home, order, all) && m in Leaves(h) && i < |s.Uses(m)|
    ensures s.Uses(m)[i] in all && Reachable(h, home, order, m, s.Uses(m)[i])
  {
    assert AllReachable(h, home, order, all, m, s.Uses(m));
  }

  // ----- Scoping -----------------------------------------------------------------------------------

  /** Expressions sent down from the root are only over columns that their leaf can reach. */
  lemma DestReaches(h: Tree, home: Home, order: map<nat, nat>, all: set<ColName>, cols: seq<ColName>)
    requires UniqueIds(h) && Ordered(h, order)
    requires forall i | 0 <= i < |cols| :: cols[i] in all && Under(cols[i], h, home)
    ensures AllReachable(h, home, order, all, Dest(h, cols, home), cols)
  {
    var d := Dest(h, cols, home);
    forall i | 0 <= i < |cols| ensures Reachable(h, home, order, d, cols[i]) {
      DestIsLast(h, cols, home, order, i);
      if order[home[cols[i].table]] == order[d] {
        OneLeafPerNumber(h, order, home[cols[i].table], d);
      }
    }
  }

  lemma ScopedGrows(h: Tree, t: Tree, s: State, s': State, home: Home, order: map<nat, nat>, all: set<ColName>,
                    f: Field)
    requires UniqueIds(h) && Ordered(h, order) && Scoped(h, s, home, order, all) && Within(t, h)
    requires Grew(t, s, s', home, f)
    requires Dest(t, f.Cols(), home) in Leaves(h)
    requires AllReachable(h, home, order, all, Dest(t, f.Cols(), home), f.Cols())
    ensures Scoped(h, s', home, order, all)
  {
    forall m | m in Leaves(h) ensures AllReachable(h, home, order, all, m, s'.Uses(m)) {
      if m != Dest(t, f.Cols(), home) {
        SameAtOtherLeaves(h, t, s, s', home, f, m);
      }
    }
  }

  lemma UsesGrow(h: Tree, t: Tree, s: State, s': State, home: Home, f: Field)
    requires UniqueIds(h) && Within(t, h) && Grew(t, s, s', home, f) && UsesOk(h, s)
    ensures UsesOk(h, s')
  {
    var d := Dest(t, f.Cols(), home);
    forall m | m in Leaves(h) ensures AllMentioned(s'.Fields(m), s'.Uses(m)) {
      assert AllMentioned(s.Fields(m), s.Uses(m));
      if m == d {
        MentionedGrow(s.Fields(d), s.Uses(d), f);
      } else {
        SameAtOtherLeaves(h, t, s, s', home, f, m);
      }
    }
  }

  lemma MentionedGrow(fields: seq<Field>, uses: seq<ColName>, f: Field)
    requires AllMentioned(fields, uses)
    ensures AllMentioned(fields + [f], uses + f.Cols())
  {
    forall k | 0 <= k < |fields + [f]| ensures ColsMentioned((fields + [f])[k].Cols(), uses + f.Cols()) {
      if k < |fields| {
        assert ColsMentioned(fields[k].Cols(), uses);
      }
    }
  }

  /** A field sent into a subtree, to a leaf that reaches its columns, keeps the plan in order. */
  lemma PlanGrows(h: Tree, t: Tree, s: State, s': State, home: Home, order: map<nat, nat>, all: set<ColName>,
                  f: Field)
    requires UniqueIds(h) && Ordered(h, order) && Within(t, h) && PlanOk(h, s, home, order, all)
    requires FieldsOk(t, s', home) && Grew(t, s, s', home, f) && Dest(t, f.Cols(), home) in Leaves(h)
    requires AllReachable(h, home, order, all, Dest(t, f.Cols(), home), f.Cols())
    ensures PlanOk(h, s', home, order, all)
  {
    WholeOk(h, t, s, s', home, f);
    VarsExtend(h, s, s', home, all);
    ScopedGrows(h, t, s, s', home, order, all, f);
    UsesGrow(h, t, s, s', home, f);
  }

  lemma SameAtOtherLeaves(h: Tree, t: Tree, s: State, s': State, home: Home, f: Field, m: nat)
    requires UniqueIds(h) && Within(t, h) && Grew(t, s, s', home, f) && m in Leaves(h) && m != Dest(t, f.Cols(), home)
    ensures Same(s, s', m)
  {
    if m in Ids(t) {
      LeafOfSubtree(h, t, m);
    }
  }

  lemma {:induction false} LeafOfSubtree(h: Tree, t: Tree, m: nat)
    requires UniqueIds(h) && Within(t, h) && m in Leaves(h) && m in Ids(t)
    ensures m in Leaves(t)
  {
    if t != h {
      Side(h, t, m);
      LeavesAreNotJoins(h, m);
      if Within(t, h.left) {
        LeafOfSubtree(h.left, t, m);
      } else {
        LeafOfSubtree(h.right, t, m);
      }
    }
  }

  lemma {:induction false} OneLeafPerNumber(h: Tree, order: map<nat, nat>, p: nat, m: nat)
    requires UniqueIds(h) && Ordered(h, order) && p in Leaves(h) && m in Leaves(h) && order[p] == order[m]
    ensures p == m
  {
    if h.Join? {
      if p in Leaves(h.left) && m in Leaves(h.left) {
        OneLeafPerNumber(h.left, order, p, m);
      } else if p in Leaves(h.right) && m in Leaves(h.right) {
        OneLeafPerNumber(h.right, order, p, m);
      }
    }
  }

  // ----- Conditions ---------------------------------------------------------------------------------

  function WithUses(s: State, m: nat, cols: seq<ColName>): State {
    s.(uses := s.uses[m := s.Uses(m) + cols])
  }

  function WithCond(conds: Conds, m: nat, c: Cond): Conds {
    conds[m := CondsAt(conds, m) + [c]]
  }

  lemma ScopedWithUses(h: Tree, s: State, home: Home, order: map<nat, nat>, all: set<ColName>, m: nat,
                       cols: seq<ColName>)
    requires Ordered(h, order) && Scoped(h, s, home, order, all)
    requires m in Leaves(h) && AllReachable(h, home, order, all, m, cols)
    ensures Scoped(h, WithUses(s, m, cols), home, order, all)
  {
    var s' := WithUses(s, m, cols);
    forall k | k in Leaves(h) ensures AllReachable(h, home, order, all, k, s'.Uses(k)) {
      assert AllReachable(h, home, order, all, k, s.Uses(k));
    }
  }

  lemma UsesWithUses(h: Tree, s: State, m: nat, cols: seq<ColName>)
    requires UsesOk(h, s)
    ensures UsesOk(h, WithUses(s, m, cols))
  {
    var s' := WithUses(s, m, cols);
    forall k | k in Leaves(h) ensures AllMentioned(s'.Fields(k), s'.Uses(k)) {
      assert AllMentioned(s.Fields(k), s.Uses(k));
      forall i | 0 <= i < |s.Fields(k)| ensures ColsMentioned(s.Fields(k)[i].Cols(), s'.Uses(k)) {
        assert ColsMentioned(s.Fields(k)[i].Cols(), s.Uses(k));
      }
    }
  }

  /** More columns in the query of a leaf that reaches them keep the plan in order. */
  lemma PlanWithUses(h: Tree, s: State, home: Home, order: map<nat, nat>, all: set<ColName>, m: nat,
                     cols: seq<ColName>)
    requires Ordered(h, order) && PlanOk(h, s, home, order, all)
    requires m in Leaves(h) && AllReachable(h, home, order, all, m, cols)
    ensures PlanOk(h, WithUses(s, m, cols), home, order, all)
  {
    FieldsIgnoreUses(h, s, WithUses(s, m, cols), home);
    VarsExtend(h, s, WithUses(s, m, cols), home, all);
    ScopedWithUses(h, s, home, order, all, m, cols);
    UsesWithUses(h, s, m, cols);
  }

  lemma CondAdded(h: Tree, s: State, conds: Conds, pushed: seq<Cond>, m: nat, c: Cond)
    requires m in Leaves(h) && CondsOk(h, s, conds) && Carries(h, conds, pushed)
    ensures CondsOk(h, WithUses(s, m, c.cols), WithCond(conds, m, c)) && Carries(h, WithCond(conds, m, c), pushed + [c])
  {
    CondMentioned(h, s, conds, m, c);
    forall d ensures d in pushed + [c] <==> CarriedBy(h, WithCond(conds, m, c), d) {
      assert d in pushed <==> CarriedBy(h, conds, d);
      CondCarried(h, conds, m, c, d);
    }
  }

  lemma CondMentioned(h: Tree, s: State, conds: Conds, m: nat, c: Cond)
    requires CondsOk(h, s, conds)
    ensures CondsOk(h, WithUses(s, m, c.cols), WithCond(conds, m, c))
  {
    var s', conds' := WithUses(s, m, c.cols), WithCond(conds, m, c);
    forall k, d, i | k in Leaves(h) && d in CondsAt(conds', k) && 0 <= i < |d.cols| ensures d.cols[i] in s'.Uses(k) {
      if d in CondsAt(conds, k) {
        assert d.cols[i] in s.Uses(k);
      } else {
        assert k == m && d == c;
      }
    }
  }

  lemma CondCarried(h: Tree, conds: Conds, m: nat, c: Cond, d: Cond)
    requires m in Leaves(h)
    ensures CarriedBy(h, WithCond(conds, m, c), d) <==> CarriedBy(h, conds, d) || d == c
  {
    var conds' := WithCond(conds, m, c);
    if CarriedBy(h, conds, d) {
      var k :| k in Leaves(h) && d in CondsAt(conds, k);
      assert d in CondsAt(conds', k);
    }
    assert c in CondsAt(conds', m);
  }

  lemma GrewUntouched(h: Tree, t: Tree, s: State, s': State, home: Home, f: Field)
    requires UniqueIds(h) && Within(t, h) && h.id !in Ids(t) && Grew(t, s, s', home, f)
    ensures Untouched(h, s, s', Dest(t, f.Cols(), home))
  {
    forall id | id in Leaves(h) && id != Dest(t, f.Cols(), home) ensures Same(s, s', id) {
      SameAtOtherLeaves(h, t, s, s', home, f, id);
    }
  }

  /** A column of a subtree was added to it. */
  lemma ColumnGrows(h: Tree, t: Tree, s: State, s': State, home: Home, order: map<nat, nat>, all: set<ColName>,
                    conds: Conds, col: ColName)
    requires UniqueIds(h) && Ordered(h, order) && Within(t, h) && h.id !in Ids(t)
    requires PlanOk(h, s, home, order, all) && CondsOk(h, s, conds) && col in all && Under(col, t, home)
    requires FieldsOk(t, s', home) && Grew(t, s, s', home, ColField(col))
    ensures PlanOk(h, s', home, order, all) && CondsOk(h, s', conds) && Untouched(h, s, s', home[col.table])
  {
    WithinHasIds(t, h);
    DestOfColumn(t, col, home);
    assert AllReachable(h, home, order, all, home[col.table], [col]);
    PlanGrows(h, t, s, s', home, order, all, ColField(col));
    CondsStay(h, t, s, s', home, conds, ColField(col));
    GrewUntouched(h, t, s, s', home, ColField(col));
  }

  /** Sending a field down takes no column from any query. */
  lemma CondsStay(h: Tree, t: Tree, s: State, s': State, home: Home, conds: Conds, f: Field)
    requires UniqueIds(h) && Within(t, h) && Grew(t, s, s', home, f) && CondsOk(h, s, conds)
    ensures CondsOk(h, s', conds)
  {
    forall m, c, i | m in Leaves(h) && c in CondsAt(conds, m) && 0 <= i < |c.cols| ensures c.cols[i] in s'.Uses(m) {
      if m != Dest(t, f.Cols(), home) {
        SameAtOtherLeaves(h, t, s, s', home, f, m);
      }
    }
  }

  lemma CondsIgnoreVars(h: Tree, s: State, conds: Conds, id: nat, name: string, index: nat)
    requires CondsOk(h, s, conds)
    ensures CondsOk(h, WithVar(s, id, name, index), conds)
  {
    assert forall m: nat :: WithVar(s, id, name, index).Uses(m) == s.Uses(m);
  }

  /** A variable for a column that the left side of its join returns. */
  lemma VarProcured(h: Tree, j: Tree, before: State, s: State, home: Home, order: map<nat, nat>, all: set<ColName>,
                    conds: Conds, col: ColName, index: nat)
    requires UniqueIds(h) && Ordered(h, order) && PlanOk(h, s, home, order, all) && CondsOk(h, s, conds)
    requires Within(j, h) && j.Join? && col in all && Under(col, j.left, home)
    requires index < |s.Fields(j.left.id)| && s.Fields(j.left.id)[index].ColField?
    requires SameCol(col, s.Fields(j.left.id)[index].col)
    requires s.vars == before.vars && Untouched(h, before, s, home[col.table])
    ensures var s' := WithVar(s, j.id, VarName(col), index);
            && PlanOk(h, s', home, order, all) && CondsOk(h, s', conds) && VarName(col) in s'.Vars(j.id)
            && Untouched(h, before, s', home[col.table]) && VarsGrew(before, s')
  {
    VarKeepsPlan(h, j, s, home, order, all, col, index);
    VarLeavesUntouched(h, before, s, home[col.table], j.id, VarName(col), index);
    CondsIgnoreVars(h, s, conds, j.id, VarName(col), index);
  }

  class Planner {
    const root: Tree
    const home: Home
    const order: map<nat, nat>
    const leftJoins: set<nat>
    /** The columns of the statement. */
    const all: set<ColName>
    var s: State
    var conds: Conds
    ghost var pushed: seq<Cond>
    /** The leaves whose queries are printed, in the order of printing. */
    var printed: seq<nat>

    /** Adds a field to a subtree; a function cannot be sent to the right side of a left join. */
    method PushSelectExpr(t: Tree, f: Field) returns (index: Option<nat>)
      requires UniqueIds(t) && FieldsOk(t, s, home)
      modifies `s
      ensures index.None? ==> s == old(s)
      ensures index.Some? ==>
        Grew(t, old(s), s, home, f) && FieldsOk(t, s, home) && index.value == |old(s).Fields(t.id)|
      ensures index.None? <==> Refused(t, f)
      decreases t
    {
      if t.Leaf? {
        LeafGrew(t, s, home, f);
        s := WithLeafField(s, t.id, f);
        return Some(|s.Fields(t.id)| - 1);
      }
      if f.ExprField? && f.isFunc && t.id in leftJoins && !AllUnder(f.Cols(), t.left, home) {
        return None;
      }
      index := PushSelectExpr(SideOf(t, f, home), f);
      if index.Some? {
        JoinGrew(t, old(s), s, home, f);
        s := WithJoinField(s, t.id, f, ColOf(t, f, home, index.value));
        index := Some(|s.Fields(t.id)| - 1);
      }
    }

    predicate Refused(t: Tree, f: Field) {
      t.Join? &&
      if AllUnder(f.Cols(), t.left, home) then Refused(t.left, f)
      else (f.ExprField? && f.isFunc && t.id in leftJoins) || Refused(t.right, f)
    }

    ghost predicate Valid()
      reads this
    {
      && UniqueIds(root) && Ordered(root, order) && NamesDiffer(all)
      && PlanOk(root, s, home, order, all)
      && CondsOk(root, s, conds) && Carries(root, conds, pushed)
    }

    constructor (root: Tree, home: Home, order: map<nat, nat>, leftJoins: set<nat>, all: set<ColName>)
      requires UniqueIds(root) && Ordered(root, order) && NamesDiffer(all)
      ensures Valid() && PrintedOk() && printed == [] && pushed == []
      ensures this.root == root && this.home == home && this.order == order && this.leftJoins == leftJoins
      ensures this.all == all
    {
      this.root, this.home, this.order, this.leftJoins, this.all := root, home, order, leftJoins, all;
      s, printed, conds, pushed := State(map[], map[], map[], map[]), [], map[], [];
      new;
      NothingToCheck(root, s, home);
    }

    /** Sends an expression of the select list down from the root. */
    method PushToRoot(f: Field) returns (index: Option<nat>)
      requires Valid() && forall i | 0 <= i < |f.Cols()| :: f.Cols()[i] in all && Under(f.Cols()[i], root, home)
      modifies `s
      ensures Valid() && (index.None? ==> s == old(s)) && (index.None? <==> Refused(root, f))
      ensures index.Some? ==> Grew(root, old(s), s, home, f) && index.value == |old(s).Fields(root.id)|
    {
      index := PushSelectExpr(root, f);
      if index.Some? {
        DestReaches(root, home, order, all, f.Cols());
        PlanGrows(root, root, old(s), s, home, order, all, f);
        CondsStay(root, root, old(s), s, home, conds, f);
      }
    }

    /** Among the leaves of some columns, the one of greatest order. */
    method LastLeaf(cols: seq<ColName>) returns (m: nat)
      requires Valid() && cols != [] && forall i | 0 <= i < |cols| :: Under(cols[i], root, home)
      ensures LastOf(m, cols)
    {
      m := home[cols[0].table];
      for i := 1 to |cols|
        invariant exists k :: 0 <= k < |cols| && m == home[cols[k].table]
        invariant m in Leaves(root) && forall k | 0 <= k < i :: order[home[cols[k].table]] <= order[m]
      {
        if order[m] < order[home[cols[i].table]] {
          m := home[cols[i].table];
        }
      }
    }

    /** A condition goes to the last of the leaves that it mentions. */
    method PushOtherFilter(c: Cond)
      requires Valid() && c.cols != [] && forall i | 0 <= i < |c.cols| ::
        c.cols[i] in all && Under(c.cols[i], root, home)
      modifies `s, `conds, `pushed
      ensures Valid() && pushed == old(pushed) + [c]
      ensures exists m :: LastOf(m, c.cols) && s == WithUses(old(s), m, c.cols) && conds == WithCond(old(conds), m, c)
    {
      var m := LastLeaf(c.cols);
      LastReaches(root, home, order, all, m, c.cols);
      PlanWithUses(root, s, home, order, all, m, c.cols);
      CondAdded(root, s, conds, pushed, m, c);
      s := WithUses(s, m, c.cols);
      conds := WithCond(conds, m, c);
      pushed := pushed + [c];
    }

    /** The leaf is one of those mentioned, and none of them comes later. */
    ghost predicate LastOf(m: nat, cols: seq<ColName>)
      requires Ordered(root, order)
    {
      && m in Leaves(root) && (exists i :: 0 <= i < |cols| && cols[i].table in home && m == home[cols[i].table])
      && forall i | 0 <= i < |cols| :: Under(cols[i], root, home) && order[home[cols[i].table]] <= order[m]
    }

    /** The number of a column among the fields of a node. */
    method FindField(id: nat, col: ColName) returns (index: Option<nat>)
      ensures index.Some? ==>
        && index.value < |s.Fields(id)| && s.Fields(id)[index.value].ColField?
        && SameCol(col, s.Fields(id)[index.value].col)
      ensures index.None? ==> forall i | 0 <= i < |s.Fields(id)| ::
        !(s.Fields(id)[i].ColField? && SameCol(col, s.Fields(id)[i].col))
    {
      for i := 0 to |s.Fields(id)|
        invariant forall k | 0 <= k < i :: !(s.Fields(id)[k].ColField? && SameCol(col, s.Fields(id)[k].col))
      {
        var f := s.Fields(id)[i];
        if f.ColField? && SameCol(col, f.col) {
          return Some(i);
        }
      }
      return None;
    }

    /** The number of a column among the fields of a subtree; it is added if it is not there. */
    method ColumnIndex(t: Tree, col: ColName) returns (index: nat)
      requires Valid() && Within(t, root) && root.id !in Ids(t) && col in all && Under(col, t, home)
      modifies `s
      ensures Valid() && s.vars == old(s.vars) && Untouched(root, old(s), s, home[col.table])
      ensures index < |s.Fields(t.id)| && s.Fields(t.id)[index].ColField? && SameCol(col, s.Fields(t.id)[index].col)
    {
      var found := FindField(t.id, col);
      if found.None? {
        found := PushColumn(t, col);
      }
      index := found.value;
    }

    /**
      Asks a join for a variable that holds a column of its left side. Of the leaves only that of the column
      may change, and the root returns what it did.
    */
    method Procure(j: Tree, col: ColName) returns (name: string)
      requires Valid() && Within(j, root) && j.Join? && col in all && Under(col, j.left, home)
      modifies `s
      ensures Valid() && name == VarName(col) && name in s.Vars(j.id) && VarsGrew(old(s), s)
      ensures Untouched(root, old(s), s, home[col.table])
    {
      name := VarName(col);
      if name !in s.Vars(j.id) {
        AddVar(j, col);
      }
    }

    method AddVar(j: Tree, col: ColName)
      requires Valid() && Within(j, root) && j.Join? && col in all && Under(col, j.left, home)
      modifies `s
      ensures Valid() && VarName(col) in s.Vars(j.id) && VarsGrew(old(s), s)
      ensures Untouched(root, old(s), s, home[col.table])
    {
      SideIsWithin(root, j);
      RootIsAbove(root, j);
      var index := ColumnIndex(j.left, col);
      VarProcured(root, j, old(s), s, home, order, all, conds, col, index);
      s := WithVar(s, j.id, VarName(col), index);
    }

    /** The printed leaves, each earlier than the one before, whose queries only name variables that exist. */
    ghost predicate PrintedOk()
      reads this
    {
      Ordered(root, order) && AllPrinted(root, s, home, printed) && Downwards(printed, order)
    }

    /** Prints the query of a leaf: columns of other leaves become variables of the join where the two meet. */
    method BuildLeaf(m: nat)
      requires Valid() && PrintedOk() && m in Leaves(root) && ComesBefore({m}, printed, order)
      modifies `s, `printed
      ensures Valid() && PrintedOk() && printed == old(printed) + [m]
      ensures s.Fields(root.id) == old(s).Fields(root.id)
    {
      var cols := s.Uses(m);
      for i := 0 to |cols|
        invariant Valid() && PrintedOk() && s.Uses(m) == cols && printed == old(printed)
        invariant s.Fields(root.id) == old(s).Fields(root.id)
        invariant BoundUpTo(root, s, home, m, i)
      {
        BuildColumn(m, i);
      }
      PrintedGrows(root, s, home, order, printed, m);
      printed := printed + [m];
    }

    /** A column of an earlier leaf is asked from the join where it meets m; its own leaf is not printed yet. */
    method BuildColumn(m: nat, i: nat)
      requires Valid() && PrintedOk() && m in Leaves(root) && ComesBefore({m}, printed, order)
      requires i < |s.Uses(m)| && BoundUpTo(root, s, home, m, i)
      modifies `s
      ensures Valid() && PrintedOk() && s.Uses(m) == old(s).Uses(m) && BoundUpTo(root, s, home, m, i + 1)
      ensures s.Fields(root.id) == old(s).Fields(root.id)
    {
      var col := s.Uses(m)[i];
      UseIsReachable(root, s, home, order, all, m, i);
      if home[col.table] != m {
        NotPrinted(home[col.table], m, printed, order);
        Substitute(m, col);
        ColumnPrinted(root, old(s), s, home, printed, m, i);
      }
    }

    method Substitute(m: nat, col: ColName)
      requires Valid() && m in Leaves(root) && col in all && Under(col, root, home)
      requires order[home[col.table]] < order[m]
      modifies `s
      ensures Valid() && VarsGrew(old(s), s) && Untouched(root, old(s), s, home[col.table])
      ensures Bound(root, s, home, m, col)
      ensures root.id != home[col.table]
    {
      LCASeparates(root, order, home[col.table], m);
      var a := FindLCA(root, home[col.table], m);
      RootIsNoLeaf(root, a.value, home[col.table]);
      var name := Procure(a.value, col);
    }

    /** Prints the leaves of a subtree, the right side first. */
    method BuildQuery(t: Tree)
      requires Valid() && PrintedOk() && Within(t, root) && Leaves(t) <= Leaves(root)
      requires ComesBefore(Leaves(t), printed, order)
      modifies `s, `printed
      ensures Valid() && PrintedOk() && Added(old(printed), printed, Leaves(t))
      ensures s.Fields(root.id) == old(s).Fields(root.id)
      decreases t
    {
      if t.Leaf? {
        BuildLeaf(t.id);
      } else {
        SideIsWithin(root, t);
        SubtreeOrdered(root, t, order);
        BuildQuery(t.right);
        ghost var afterRight := printed;
        LeftComesBefore(t, old(printed), printed, order);
        BuildQuery(t.left);
        AddedTwice(old(printed), afterRight, printed, Leaves(t.right), Leaves(t.left));
      }
    }

    /** Prints all queries: afterwards every column that a leaf asks of another is a variable of their join. */
    method BuildAll()
      requires Valid() && PrintedOk() && printed == []
      modifies `s, `printed
      ensures Valid() && PrintedOk() && s.Fields(root.id) == old(s).Fields(root.id)
      ensures forall m | m in Leaves(root) :: m in printed && AllBound(root, s, home, m)
    {
      BuildQuery(root);
      assert printed[0..] == printed;
    }

    method PushColumn(t: Tree, col: ColName) returns (index: Option<nat>)
      requires Valid() && Within(t, root) && root.id !in Ids(t) && col in all && Under(col, t, home)
      modifies `s
      ensures Valid() && index.Some? && s.vars == old(s.vars) && Untouched(root, old(s), s, home[col.table])
      ensures index.value < |s.Fields(t.id)| && s.Fields(t.id)[index.value] == ColField(col)
    {
      var f := ColField(col);
      WithinOk(root, t, s, home);
      WithinHasIds(t, root);
      index := PushSelectExpr(t, f);
      NeverRefused(t, col);
      ColumnGrows(root, t, old(s), s, home, order, all, conds, col);
    }

    lemma {:induction false} NeverRefused(t: Tree, col: ColName)
      ensures !Refused(t, ColField(col))
    {
      if t.Join? {
        NeverRefused(t.left, col);
        NeverRefused(t.right, col);
      }
    }
  }

  lemma {:induction false} NothingToCheck(t: Tree, s: State, home: Home)
    requires s.fields == map[] && s.cols == map[]
    ensures FieldsOk(t, s, home)
  {
    if t.Join? {
      NothingToCheck(t.left, s, home);
      NothingToCheck(t.right, s, home);
    }
  }

  ghost predicate ComesBefore(leaves: set<nat>, printed: seq<nat>, order: map<nat, nat>) {
    forall i | 0 <= i < |printed| :: printed[i] in order && forall x | x in leaves ::
      x in order && order[x] < order[printed[i]]
  }

  /** The leaves that were printed since. */
  ghost predicate Added(before: seq<nat>, after: seq<nat>, leaves: set<nat>) {
    before <= after && forall x :: x in after[|before|..] <==> x in leaves
  }

  lemma AddedTwice(a: seq<nat>, b: seq<nat>, c: seq<nat>, first: set<nat>, second: set<nat>)
    requires Added(a, b, first) && Added(b, c, second)
    ensures Added(a, c, first + second)
  {
    assert c[|a|..] == b[|a|..] + c[|b|..];
  }

  lemma LeftComesBefore(t: Tree, before: seq<nat>, printed: seq<nat>, order: map<nat, nat>)
    requires t.Join? && Ordered(t, order) && ComesBefore(Leaves(t), before, order)
    requires Added(before, printed, Leaves(t.right))
    ensures ComesBefore(Leaves(t.left), printed, order)
  {
    forall i, x | 0 <= i < |printed| && x in Leaves(t.left) ensures printed[i] in order &&
      order[x] < order[printed[i]] {
      if i < |before| {
        assert printed[i] == before[i];
      } else {
        assert printed[i] == printed[|before|..][i - |before|];
        assert printed[i] in printed[|before|..];
      }
    }
  }

  lemma {:induction false} SubtreeOrdered(h: Tree, t: Tree, order: map<nat, nat>)
    requires Within(t, h) && Ordered(h, order)
    ensures Ordered(t, order)
  {
    if t != h {
      if Within(t, h.left) {
        SubtreeOrdered(h.left, t, order);
      } else {
        SubtreeOrdered(h.right, t, order);
      }
    }
  }

  lemma {:induction false} WithinOk(h: Tree, t: Tree, s: State, home: Home)
    requires Within(t, h) && FieldsOk(h, s, home)
    ensures FieldsOk(t, s, home)
  {
    if t != h {
      if Within(t, h.left) {
        WithinOk(h.left, t, s, home);
      } else {
        WithinOk(h.right, t, s, home);
      }
    }
  }

  lemma LastReaches(h: Tree, home: Home, order: map<nat, nat>, all: set<ColName>, m: nat, cols: seq<ColName>)
    requires UniqueIds(h) && Ordered(h, order) && m in Leaves(h)
    requires forall i | 0 <= i < |cols| ::
      cols[i] in all && Under(cols[i], h, home) && order[home[cols[i].table]] <= order[m]
    ensures AllReachable(h, home, order, all, m, cols)
  {
    forall i | 0 <= i < |cols| ensures Reachable(h, home, order, m, cols[i]) {
      if order[home[cols[i].table]] == order[m] {
        OneLeafPerNumber(h, order, home[cols[i].table], m);
      }
    }
  }

  lemma {:induction false} FieldsIgnoreUses(h: Tree, s: State, s': State, home: Home)
    requires FieldsOk(h, s, home) && s'.fields == s.fields && s'.cols == s.cols
    ensures FieldsOk(h, s', home)
  {
    if h.Join? {
      FieldsIgnoreUses(h.left, s, s', home);
      FieldsIgnoreUses(h.right, s, s', home);
    }
  }
}
