/** AND/OR rewriting of WHERE and ON clauses, and the proof that it keeps their meaning on every row. */
module Rewriting {
  import opened Prelude
  import opened SqlExpr

  // ----- Splitting a conjunction -------------------------------------------------------

  /** Appends the AND-separated conditions of an expression to `filters`. */
  function SplitAnd(filters: seq<Expr>, node: Expr): seq<Expr>
    decreases node
  {
    match node
    case And(l, r) => SplitAnd(SplitAnd(filters, l), r)
    case Paren(And(l, r)) => SplitAnd(SplitAnd(filters, l), r)
    case _ => filters + [node]
  }

  lemma TAndAssociates(a: Truth, b: Truth, c: Truth)
    ensures TAnd(TAnd(a, b), c) == TAnd(a, TAnd(b, c))
  {
  }

  lemma EvalAllGrows(filters: seq<Expr>, node: Expr, env: Env)
    ensures EvalAll(filters + [node], env) == TAnd(EvalAll(filters, env), Eval(node, env))
  {
    assert (filters + [node])[..|filters|] == filters;
  }

  /** The conditions together have the truth value of the clause. */
  lemma {:induction false} SplitAndKeepsMeaning(filters: seq<Expr>, node: Expr, env: Env)
    ensures EvalAll(SplitAnd(filters, node), env) == TAnd(EvalAll(filters, env), Eval(node, env))
    decreases node
  {
    match node
    case And(l, r) =>
      SplitAndKeepsMeaning(filters, l, env);
      SplitAndKeepsMeaning(SplitAnd(filters, l), r, env);
      TAndAssociates(EvalAll(filters, env), Eval(l, env), Eval(r, env));
    case Paren(And(l, r)) =>
      SplitAndKeepsMeaning(filters, l, env);
      SplitAndKeepsMeaning(SplitAnd(filters, l), r, env);
      TAndAssociates(EvalAll(filters, env), Eval(l, env), Eval(r, env));
    case _ => EvalAllGrows(filters, node, env);
  }

  /** Splitting brings in no new columns or literals. */
  lemma {:induction false} SplitAndOver(filters: seq<Expr>, node: Expr, atoms: set<Expr>)
    requires OverAll(filters, atoms) && Over(node, atoms)
    ensures OverAll(SplitAnd(filters, node), atoms)
    decreases node
  {
    match node
    case And(l, r) =>
      SplitAndOver(filters, l, atoms);
      SplitAndOver(SplitAnd(filters, l), r, atoms);
    case Paren(And(l, r)) =>
      assert Atoms(node.inner) == Atoms(l) + Atoms(r);
      SplitAndOver(filters, l, atoms);
      SplitAndOver(SplitAnd(filters, l), r, atoms);
    case _ =>
  }

  lemma {:induction false} SkipKeepsAtoms(node: Expr)
    ensures Atoms(SkipParenthesis(node)) == Atoms(node)
  {
    if node.Paren? {
      SkipKeepsAtoms(node.inner);
    }
  }

  function SkipParenthesis(node: Expr): (r: Expr)
    ensures !r.Paren?
    ensures if node.Paren? then r < node else r == node
  {
    if node.Paren? then SkipParenthesis(node.inner) else node
  }

  lemma {:induction false} SkipKeepsMeaning(node: Expr, env: Env)
    ensures Eval(SkipParenthesis(node), env) == Eval(node, env)
  {
    if node.Paren? {
      SkipKeepsMeaning(node.inner, env);
    }
  }

  // ----- Collecting the equalities of a disjunction -------------------------------------

  /** The literals that were compared for equality with one column. */
  datatype Entry = Entry(col: ColName, vals: seq<SqlVal>)

  function Lits(vals: seq<SqlVal>): (r: seq<Expr>)
    ensures |r| == |vals| && forall i | 0 <= i < |vals| :: r[i] == Lit(vals[i])
  {
    if vals == [] then [] else Lits(vals[..|vals| - 1]) + [Lit(vals[|vals| - 1])]
  }

  function InExpr(entry: Entry): Expr {
    Cmp(In, Col(entry.col), ValTuple(Lits(entry.vals)))
  }

  function EvalEntries(entries: seq<Entry>, env: Env): Truth {
    if entries == [] then False
    else TOr(EvalEntries(entries[..|entries| - 1], env), Eval(InExpr(entries[|entries| - 1]), env))
  }

  /** No two keys of the map are the same column. */
  predicate KeysDiffer(entries: seq<Entry>) {
    forall i, j | 0 <= i < j < |entries| :: !SameCol(entries[i].col, entries[j].col)
  }

  lemma InGrows(x: Scalar, es: seq<Expr>, e: Expr, env: Env)
    ensures EvalIn(x, es + [e], env) == TOr(EvalIn(x, es, env), SqlEq(x, EvalScalar(e, env)))
  {
    assert (es + [e])[..|es|] == es;
  }

  lemma LitsGrow(vals: seq<SqlVal>, val: SqlVal)
    ensures Lits(vals + [val]) == Lits(vals) + [Lit(val)]
  {
    assert (vals + [val])[..|vals|] == vals;
  }

  lemma EvalInExpr(entry: Entry, env: Env)
    ensures Eval(InExpr(entry), env) == EvalIn(ColValue(entry.col, env), Lits(entry.vals), env)
  {
  }

  lemma GrowEntry(entry: Entry, val: SqlVal, env: Env)
    ensures Eval(InExpr(Entry(entry.col, entry.vals + [val])), env) ==
            TOr(Eval(InExpr(entry), env), SqlEq(ColValue(entry.col, env), Value(val.rank)))
  {
    EvalInExpr(entry, env);
    EvalInExpr(Entry(entry.col, entry.vals + [val]), env);
    LitsGrow(entry.vals, val);
    InGrows(ColValue(entry.col, env), Lits(entry.vals), Lit(val), env);
  }

  /** The disjunction of the values of a list. */
  function AnyOf(f: Entry -> Truth, entries: seq<Entry>): Truth {
    if entries == [] then False else TOr(AnyOf(f, entries[..|entries| - 1]), f(entries[|entries| - 1]))
  }

  lemma {:induction false} AnyOfUpdate(f: Entry -> Truth, entries: seq<Entry>, i: nat, entry: Entry, t: Truth)
    requires i < |entries| && f(entry) == TOr(f(entries[i]), t)
    ensures AnyOf(f, entries[i := entry]) == TOr(AnyOf(f, entries), t)
  {
    var n := |entries| - 1;
    if i < n {
      assert entries[i := entry][..n] == entries[..n][i := entry];
      AnyOfUpdate(f, entries[..n], i, entry, t);
    } else {
      assert entries[i := entry][..n] == entries[..n];
    }
  }

  lemma {:induction false} AnyOfTake(f: Entry -> Truth, entries: seq<Entry>, i: nat)
    requires i < |entries|
    ensures AnyOf(f, entries) == TOr(AnyOf(f, entries[..i] + entries[i + 1..]), f(entries[i]))
  {
    var n := |entries| - 1;
    if i == n {
      assert entries[..i] + entries[i + 1..] == entries[..n];
    } else {
      var rest := entries[..i] + entries[i + 1..];
      assert rest[..|rest| - 1] == entries[..n][..i] + entries[..n][i + 1..];
      AnyOfTake(f, entries[..n], i);
    }
  }

  lemma {:induction false} EntriesAreAny(entries: seq<Entry>, env: Env)
    ensures EvalEntries(entries, env) == AnyOf((entry: Entry) => Eval(InExpr(entry), env), entries)
  {
    if entries != [] {
      EntriesAreAny(entries[..|entries| - 1], env);
    }
  }

  lemma EntriesUpdate(entries: seq<Entry>, i: nat, entry: Entry, t: Truth, env: Env)
    requires i < |entries| && Eval(InExpr(entry), env) == TOr(Eval(InExpr(entries[i]), env), t)
    ensures EvalEntries(entries[i := entry], env) == TOr(EvalEntries(entries, env), t)
  {
    EntriesAreAny(entries, env);
    EntriesAreAny(entries[i := entry], env);
    AnyOfUpdate((e: Entry) => Eval(InExpr(e), env), entries, i, entry, t);
  }

  /** An entry can be taken out from anywhere: the order of the map does not matter. */
  lemma EntriesTake(entries: seq<Entry>, i: nat, env: Env)
    requires i < |entries|
    ensures EvalEntries(entries, env) ==
            TOr(EvalEntries(entries[..i] + entries[i + 1..], env), Eval(InExpr(entries[i]), env))
  {
    EntriesAreAny(entries, env);
    EntriesAreAny(entries[..i] + entries[i + 1..], env);
    AnyOfTake((entry: Entry) => Eval(InExpr(entry), env), entries, i);
  }

  /** What a map of equalities together with a list of other conditions stands for. */
  function EvalSplit(subs: seq<Expr>, entries: seq<Entry>, env: Env): Truth {
    TOr(EvalAny(subs, env), EvalEntries(entries, env))
  }

  ghost predicate EntryOver(entry: Entry, atoms: set<Expr>) {
    Col(entry.col) in atoms && forall k | 0 <= k < |entry.vals| ::
      Lit(entry.vals[k]) in atoms && ColEq(entry.col, entry.vals[k]) in atoms
  }

  ghost predicate EntriesOver(entries: seq<Entry>, atoms: set<Expr>) {
    forall i | 0 <= i < |entries| :: EntryOver(entries[i], atoms)
  }

  lemma EqualityIsOver(node: Expr, atoms: set<Expr>)
    requires node.Cmp? && Over(node, atoms) && (node.left.Col? || node.left.Lit?) &&
      (node.right.Col? || node.right.Lit?)
    ensures node.left in atoms && node.right in atoms && Equalities(node.op, node.left, node.right) <= atoms
  {
    assert Atoms(node.left) == {node.left} && Atoms(node.right) == {node.right};
  }

  lemma InExprIsOver(entry: Entry, atoms: set<Expr>)
    requires EntryOver(entry, atoms)
    ensures Over(InExpr(entry), atoms)
  {
    TupleIsOver(Lits(entry.vals), atoms);
    assert Atoms(Col(entry.col)) == {Col(entry.col)} &&
      Atoms(ValTuple(Lits(entry.vals))) == AtomsOfAll(Lits(entry.vals));
  }

  /** On every row the entries hold also when the column equals the literal. */
  ghost predicate Takes(before: seq<Entry>, after: seq<Entry>, col: ColName, val: SqlVal) {
    forall env :: EvalEntries(after, env) == TOr(EvalEntries(before, env), SqlEq(ColValue(col, env), Value(val.rank)))
  }

  lemma TakenByEntry(entries: seq<Entry>, i: nat, col: ColName, val: SqlVal, atoms: set<Expr>)
    requires i < |entries| && SameCol(col, entries[i].col) && KeysDiffer(entries) && EntriesOver(entries, atoms)
    requires Lit(val) in atoms && ColEq(col, val) in atoms
    ensures var after := entries[i := Entry(entries[i].col, entries[i].vals + [val])];
            KeysDiffer(after) && EntriesOver(after, atoms) && Takes(entries, after, col, val)
  {
    var entry := Entry(entries[i].col, entries[i].vals + [val]);
    forall env ensures EvalEntries(entries[i := entry], env) ==
                       TOr(EvalEntries(entries, env), SqlEq(ColValue(col, env), Value(val.rank)))
    {
      GrowEntry(entries[i], val, env);
      EntriesUpdate(entries, i, entry, SqlEq(ColValue(col, env), Value(val.rank)), env);
    }
  }

  lemma OneLiteral(col: ColName, val: SqlVal, env: Env)
    ensures Eval(InExpr(Entry(col, [val])), env) == SqlEq(ColValue(col, env), Value(val.rank))
  {
    GrowEntry(Entry(col, []), val, env);
    assert [] + [val] == [val];
  }

  lemma NewEntryTakes(entries: seq<Entry>, col: ColName, val: SqlVal)
    ensures Takes(entries, entries + [Entry(col, [val])], col, val)
  {
    var after := entries + [Entry(col, [val])];
    assert after[..|entries|] == entries;
    forall env ensures EvalEntries(after, env) == TOr(EvalEntries(entries, env),
      SqlEq(ColValue(col, env), Value(val.rank))) {
      OneLiteral(col, val, env);
    }
  }

  lemma TakenByNewEntry(entries: seq<Entry>, col: ColName, val: SqlVal, atoms: set<Expr>)
    requires forall k | 0 <= k < |entries| :: !SameCol(col, entries[k].col)
    requires KeysDiffer(entries) && EntriesOver(entries, atoms) && Col(col) in atoms && Lit(val) in atoms
    requires ColEq(col, val) in atoms
    ensures var after := entries + [Entry(col, [val])];
            KeysDiffer(after) && EntriesOver(after, atoms) && Takes(entries, after, col, val)
  {
    NewEntryTakes(entries, col, val);
    assert EntryOver(Entry(col, [val]), atoms);
  }

  class InMap {
    var entries: seq<Entry>

    constructor ()
      ensures entries == []
    {
      entries := [];
    }

    /** checkColInMap and the append: the literal joins the entry of its column, or starts one. */
    method Add(col: ColName, val: SqlVal, ghost atoms: set<Expr>)
      requires KeysDiffer(entries) && EntriesOver(entries, atoms) && Col(col) in atoms && Lit(val) in atoms
      requires ColEq(col, val) in atoms
      modifies this
      ensures KeysDiffer(entries) && entries != [] && EntriesOver(entries, atoms)
      ensures Takes(old(entries), entries, col, val)
    {
      var i := 0;
      while i < |entries|
        invariant i <= |entries| && entries == old(entries)
        invariant forall k | 0 <= k < i :: !SameCol(col, entries[k].col)
      {
        if SameCol(col, entries[i].col) {
          TakenByEntry(entries, i, col, val, atoms);
          entries := entries[i := Entry(entries[i].col, entries[i].vals + [val])];
          return;
        }
        i := i + 1;
      }
      TakenByNewEntry(entries, col, val, atoms);
      entries := entries + [Entry(col, [val])];
    }

    /** Moves the equalities between a column and a literal into the map and returns the other conditions. */
    method SplitOr(node: Expr, ghost atoms: set<Expr>) returns (subs: seq<Expr>)
      requires KeysDiffer(entries) && EntriesOver(entries, atoms) && Over(node, atoms)
      modifies this
      ensures EntriesOver(entries, atoms) && OverAll(subs, atoms)
      ensures KeysDiffer(entries) && (subs == [] ==> entries != []) && (old(entries) != [] ==> entries != [])
      ensures forall env :: EvalSplit(subs, entries, env) == TOr(Eval(node, env), EvalEntries(old(entries), env))
      decreases node
    {
      match node
      case Or(l, r) =>
        subs := SplitOr(l, atoms);
        ghost var mid := entries;
        var more := SplitOr(r, atoms);
        SplitsCompose(l, r, old(entries), mid, entries, subs, more);
        subs := subs + more;
      case Cmp(Eq, Col(col), Lit(val)) =>
        EqualityIsOver(node, atoms);
        Add(col, val, atoms);
        subs := [];
      case Cmp(Eq, Lit(val), Col(col)) =>
        EqualityIsOver(node, atoms);
        Add(col, val, atoms);
        subs := [];
      case Paren(_) =>
        forall env ensures Eval(SkipParenthesis(node), env) == Eval(node, env) {
          SkipKeepsMeaning(node, env);
        }
        SkipKeepsAtoms(node);
        subs := SplitOr(SkipParenthesis(node), atoms);
      case _ =>
        subs := [node];
        OneCondition(node);
    }
  }

  lemma OneCondition(node: Expr)
    ensures forall env :: EvalAny([node], env) == Eval(node, env)
  {
    assert [node][..0] == [];
  }

  /** Splitting both sides of an OR, one after the other. */
  lemma SplitsCompose(l: Expr, r: Expr, before: seq<Entry>, mid: seq<Entry>, after: seq<Entry>, subs: seq<Expr>,
                      more: seq<Expr>)
    requires forall env :: EvalSplit(subs, mid, env) == TOr(Eval(l, env), EvalEntries(before, env))
    requires forall env :: EvalSplit(more, after, env) == TOr(Eval(r, env), EvalEntries(mid, env))
    ensures forall env :: EvalSplit(subs + more, after, env) == TOr(Eval(Or(l, r), env), EvalEntries(before, env))
  {
    forall env ensures EvalSplit(subs + more, after, env) == TOr(Eval(Or(l, r), env), EvalEntries(before, env)) {
      EvalAnyAppends(subs, more, env);
      assert EvalSplit(subs, mid, env) == TOr(Eval(l, env), EvalEntries(before, env));
      assert EvalSplit(more, after, env) == TOr(Eval(r, env), EvalEntries(mid, env));
    }
  }

  function RebuildOr(node: Option<Expr>, expr: Expr): Expr {
    if node.None? then expr else Or(node.value, expr)
  }

  function EvalMaybe(node: Option<Expr>, env: Env): Truth {
    if node.None? then False else Eval(node.value, env)
  }

  /**
    Turns `a = 1 OR a = 2 OR ...` into `a IN (1, 2) OR ...`. The map is walked in any order; the
    result has the meaning of the input on every row.
  */
  method ConvertOrToIn(node: Expr) returns (r: Expr)
    ensures forall env :: Eval(r, env) == Eval(node, env)
    ensures !node.Or? ==> r == node
    ensures Over(r, Atoms(node))
  {
    if !node.Or? {
      return node;
    }
    var inMap := new InMap();
    var subs := inMap.SplitOr(node, Atoms(node));
    var result := RebuildConditions(subs, Atoms(node));
    r := RebuildEntries(result, inMap.entries, Atoms(node));
  }

  /** The conditions that are not equalities, joined by OR. */
  method RebuildConditions(subs: seq<Expr>, ghost atoms: set<Expr>) returns (result: Option<Expr>)
    requires OverAll(subs, atoms)
    ensures result.None? <==> subs == []
    ensures forall env :: EvalMaybe(result, env) == EvalAny(subs, env)
    ensures result.Some? ==> Over(result.value, atoms)
  {
    result := None;
    for i := 0 to |subs|
      invariant result.None? <==> i == 0
      invariant forall env :: EvalMaybe(result, env) == EvalAny(subs[..i], env)
      invariant result.Some? ==> Over(result.value, atoms)
    {
      assert subs[..i + 1][..i] == subs[..i];
      result := Some(RebuildOr(result, subs[i]));
    }
    assert subs[..|subs|] == subs;
  }

  /** The entries of the map, in any order, joined to the rest by OR. */
  method RebuildEntries(first: Option<Expr>, entries: seq<Entry>, ghost atoms: set<Expr>) returns (r: Expr)
    requires EntriesOver(entries, atoms) && (first.Some? ==> Over(first.value, atoms)) && (first.Some? || entries != [])
    ensures forall env :: Eval(r, env) == TOr(EvalMaybe(first, env), EvalEntries(entries, env))
    ensures Over(r, atoms)
  {
    var result, rest := first, entries;
    while rest != []
      invariant forall env :: TOr(EvalMaybe(result, env), EvalEntries(rest, env)) == TOr(EvalMaybe(first, env),
        EvalEntries(entries, env))
      invariant result.None? ==> first.None? && rest == entries
      invariant EntriesOver(rest, atoms) && (result.Some? ==> Over(result.value, atoms))
    {
      var i :| 0 <= i < |rest|;
      EntryMoves(result, rest, i);
      InExprIsOver(rest[i], atoms);
      result := Some(RebuildOr(result, InExpr(rest[i])));
      rest := rest[..i] + rest[i + 1..];
    }
    r := result.value;
  }

  lemma EntryMoves(result: Option<Expr>, rest: seq<Entry>, i: nat)
    requires i < |rest|
    ensures forall env :: TOr(EvalMaybe(Some(RebuildOr(result, InExpr(rest[i]))), env),
      EvalEntries(rest[..i] + rest[i + 1..], env)) ==
                          TOr(EvalMaybe(result, env), EvalEntries(rest, env))
  {
    forall env ensures TOr(EvalMaybe(Some(RebuildOr(result, InExpr(rest[i]))), env),
      EvalEntries(rest[..i] + rest[i + 1..], env)) ==
                       TOr(EvalMaybe(result, env), EvalEntries(rest, env)) {
      EntriesTake(rest, i, env);
      MovesAt(result, InExpr(rest[i]), EvalEntries(rest, env), EvalEntries(rest[..i] + rest[i + 1..], env), env);
    }
  }

  lemma MovesAt(result: Option<Expr>, e: Expr, all: Truth, others: Truth, env: Env)
    requires all == TOr(others, Eval(e, env))
    ensures TOr(EvalMaybe(Some(RebuildOr(result, e)), env), others) == TOr(EvalMaybe(result, env), all)
  {
    if result.Some? {
      assert Eval(Or(result.value, e), env) == TOr(Eval(result.value, env), Eval(e, env));
    }
    MoveTruth(EvalMaybe(result, env), others, Eval(e, env));
  }

  lemma MoveTruth(a: Truth, b: Truth, x: Truth)
    ensures TOr(TOr(a, x), b) == TOr(a, TOr(b, x)) && TOr(False, x) == x
  {
  }

  // ----- Parsing a WHERE or ON clause ----------------------------------------------------------

  /** The columns of an expression, in the order of a walk over it. */
  function ColsOf(e: Expr): seq<ColName>
    decreases e, 1
  {
    match e
    case Col(col) => [col]
    case Lit(_) => []
    case ValTuple(vals) => ColsOfAll(vals)
    case Cmp(_, l, r) => ColsOf(l) + ColsOf(r)
    case And(l, r) => ColsOf(l) + ColsOf(r)
    case Or(l, r) => ColsOf(l) + ColsOf(r)
    case Paren(inner) => ColsOf(inner)
    case Opaque(_, cols, _) => cols
  }

  function ColsOfAll(es: seq<Expr>): seq<ColName>
    decreases es, 0
  {
    if es == [] then [] else ColsOf(es[0]) + ColsOfAll(es[1..])
  }

  /** A condition, its columns, and the literals its only column is compared with, if it is such a condition. */
  datatype ExprInfo = ExprInfo(expr: Expr, cols: seq<ColName>, vals: seq<SqlVal>)

  function EvalInfos(infos: seq<ExprInfo>, env: Env): Truth {
    if infos == [] then True else TAnd(EvalInfos(infos[..|infos| - 1], env), Eval(infos[|infos| - 1].expr, env))
  }

  /** When literals were recorded, the condition says that the first column equals one of them. */
  predicate ValsAreExact(info: ExprInfo) {
    info.vals != [] ==>
      && info.cols != []
      && ((info.expr == Cmp(Eq, Col(info.cols[0]), Lit(info.vals[0])) && |info.vals| == 1)
          || info.expr == Cmp(In, Col(info.cols[0]), ValTuple(Lits(info.vals))))
  }

  /** Columns must name a known table, unless there is only one. */
  predicate Known(cols: seq<ColName>, tables: set<string>) {
    forall i | 0 <= i < |cols| :: if cols[i].table == "" then |tables| == 1 else cols[i].table in tables
  }

  predicate HasSubquery(atom: Expr) { atom.Opaque? && atom.subquery }

  /** What makes the planner refuse a clause. */
  predicate Unsupported(atom: Expr, tables: set<string>) {
    !Known(ColsOf(atom), tables) || HasSubquery(atom)
  }

  function AllLits(vals: seq<Expr>): Option<seq<SqlVal>> {
    if vals == [] then Some([])
    else
      var front := AllLits(vals[..|vals| - 1]);
      if front.None? || !vals[|vals| - 1].Lit? then None else Some(front.value + [vals[|vals| - 1].val])
  }

  lemma {:induction false} AllLitsAreLits(vals: seq<Expr>)
    requires AllLits(vals).Some?
    ensures Lits(AllLits(vals).value) == vals
  {
    if vals != [] {
      var vs := AllLits(vals).value;
      AllLitsAreLits(vals[..|vals| - 1]);
      assert vs[..|vs| - 1] == AllLits(vals[..|vals| - 1]).value;
    }
  }

  lemma LitsAreAtoms(vals: seq<SqlVal>, k: nat)
    requires k < |vals|
    ensures Lit(vals[k]) in AtomsOfAll(Lits(vals))
  {
    AtomsOfMember(Lits(vals), k);
    assert Atoms(Lit(vals[k])) == {Lit(vals[k])};
  }

  lemma TupleLitsAreAtoms(filter: Expr, vals: seq<SqlVal>)
    requires filter.Cmp? && filter.op == In && filter.left.Col? && filter.right.ValTuple?
    requires filter.right.vals == Lits(vals)
    ensures forall k | 0 <= k < |vals| ::
      Lit(vals[k]) in Atoms(filter) && ColEq(filter.left.col, vals[k]) in Atoms(filter)
  {
    assert Atoms(filter.right) == AtomsOfAll(Lits(vals));
    forall k | 0 <= k < |vals| ensures Lit(vals[k]) in Atoms(filter) &&
      ColEq(filter.left.col, vals[k]) in Atoms(filter) {
      LitsAreAtoms(vals, k);
      assert filter.right.vals[k] == Lit(vals[k]);
    }
  }

  /** The literals that decide a condition on one column. */
  function DecidingVals(filter: Expr): seq<SqlVal> {
    match filter
    case Cmp(Eq, Col(_), Lit(val)) => [val]
    case Cmp(Eq, Lit(val), Col(_)) => [val]
    case Cmp(In, Col(_), ValTuple(vals)) => if AllLits(vals).Some? then AllLits(vals).value else []
    case _ => []
  }

  /** Classifies one condition; a literal on the left of an equality is swapped to the right. */
  method Classify(filter: Expr) returns (isJoin: bool, info: ExprInfo)
    ensures forall env :: Eval(info.expr, env) == Eval(filter, env)
    ensures ValsAreExact(info) && info.vals == DecidingVals(filter) && info.cols == ColsOf(filter)
    ensures ValsOver(info, Atoms(filter))
    ensures isJoin <==> filter.Cmp? && filter.op == Eq && filter.left.Col? && filter.right.Col?
                        && filter.left.col.table != filter.right.col.table
  {
    var cols := ColsOf(filter);
    isJoin, info := false, ExprInfo(filter, cols, []);
    match filter
    case Cmp(Eq, Col(l), Col(r)) => isJoin := l.table != r.table;
    case Cmp(Eq, Col(col), Lit(val)) =>
      assert ColsOf(filter.left) == [col] && ColsOf(filter.right) == [] && cols[0] == col;
      EqualityIsOver(filter, Atoms(filter));
      info := ExprInfo(filter, cols, [val]);
    case Cmp(Eq, Lit(val), Col(col)) =>
      EqualityIsOver(filter, Atoms(filter));
      assert ColsOf(filter.left) == [] && ColsOf(filter.right) == [col] && cols[0] == col;
      info := ExprInfo(Cmp(Eq, Col(col), Lit(val)), cols, [val]);
    case Cmp(In, Col(col), ValTuple(vals)) =>
      var lits := AllLits(vals);
      if lits.Some? {
        AllLitsAreLits(vals);
        TupleLitsAreAtoms(filter, lits.value);
        assert ColsOf(filter.left) == [col] && cols[0] == col;
        info := ExprInfo(filter, cols, lits.value);
      }
    case _ =>
  }

  /** Rewrites and classifies one condition of the clause. */
  method ParseFilter(cond: Expr, tables: set<string>) returns (r: Result<(bool, ExprInfo)>)
    ensures r.Ok? ==> ValsAreExact(r.value.1) && ValsOver(r.value.1, Atoms(cond)) && SameMeaning(cond, r.value.1)
    ensures r.Err? ==> exists atom :: atom in Atoms(cond) && Unsupported(atom, tables)
    ensures r.Ok? && IsEquality(cond) ==> !r.value.0 && IsInfoOf(r.value.1, cond)
  {
    SkipKeepsAtoms(cond);
    var filter := ConvertOrToIn(SkipParenthesis(cond));
    if !Known(ColsOf(filter), tables) {
      UnknownAtom(filter, tables);
      return Err("unsupported: unknown.column.in.clause");
    }
    if exists atom | atom in Atoms(filter) :: HasSubquery(atom) {
      return Err("unsupported: subqueries.in.select");
    }
    var isJoin, info := Classify(filter);
    InfoMeans(cond, filter, info);
    r := Ok((isJoin, info));
  }

  /**
    Splits a clause into join conditions and filters. Whatever the order in which the OR conditions are
    rebuilt, the conjunction of all parts has the truth value of the clause on every row.
  */
  method ParseWhere(clause: Expr, tables: set<string>) returns (r: Result<(seq<ExprInfo>, seq<ExprInfo>)>)
    ensures r.Ok? ==> forall env :: TAnd(EvalInfos(r.value.0, env), EvalInfos(r.value.1, env)) == Eval(clause, env)
    ensures r.Ok? ==> InfosExact(r.value.1, Atoms(clause))
    ensures r.Err? ==> exists atom :: atom in Atoms(clause) && Unsupported(atom, tables)
    ensures r.Ok? && IsEquality(clause) ==> |r.value.1| == 1 && IsInfoOf(r.value.1[0], clause)
  {
    var filters := SplitAnd([], clause);
    SplitAndOver([], clause, Atoms(clause));
    var joins: seq<ExprInfo>, wheres: seq<ExprInfo> := [], [];
    for i := 0 to |filters|
      invariant Mean(joins, wheres, filters[..i])
      invariant InfosExact(wheres, Atoms(clause))
      invariant IsEquality(clause) ==> filters == [clause] && OneInfo(wheres, clause, i)
    {
      assert Over(filters[i], Atoms(clause));
      var parsed := ParseFilter(filters[i], tables);
      if parsed.Err? {
        return Err(parsed.error);
      }
      var info := parsed.value.1;
      MeanMore(joins, wheres, filters, i, info);
      if parsed.value.0 {
        joins := joins + [info];
      } else {
        InfosExactMore(wheres, info, Atoms(clause));
        wheres := wheres + [info];
      }
    }
    MeanAll(joins, wheres, clause);
    r := Ok((joins, wheres));
  }

  predicate OneInfo(infos: seq<ExprInfo>, e: Expr, n: nat)
    requires IsEquality(e)
  {
    |infos| == n && (n == 1 ==> IsInfoOf(infos[0], e))
  }

  /** A column is compared with a literal. */
  predicate IsEquality(e: Expr) {
    e.Cmp? && e.op == Eq && e.left.Col? && e.right.Lit?
  }

  predicate IsInfoOf(info: ExprInfo, e: Expr)
    requires IsEquality(e)
  {
    info.cols == ColsOf(e) && info.vals == [e.right.val]
  }

  predicate InfosExact(infos: seq<ExprInfo>, atoms: set<Expr>) {
    forall i | 0 <= i < |infos| :: ValsAreExact(infos[i]) && ValsOver(infos[i], atoms)
  }

  /** The recorded literals, and their equalities with the first column, are among some atoms. */
  predicate ValsOver(info: ExprInfo, atoms: set<Expr>) {
    info.vals != [] ==>
      info.cols != [] && forall k | 0 <= k < |info.vals| ::
        Lit(info.vals[k]) in atoms && ColEq(info.cols[0], info.vals[k]) in atoms
  }

  /** An unknown column is in some part of the expression. */
  lemma UnknownAtom(e: Expr, tables: set<string>)
    requires !Known(ColsOf(e), tables)
    ensures exists atom :: atom in Atoms(e) && !Known(ColsOf(atom), tables)
  {
    if forall atom | atom in Atoms(e) :: Known(ColsOf(atom), tables) {
      KnownAtoms(e, tables);
    }
  }

  lemma {:induction false} KnownAtoms(e: Expr, tables: set<string>)
    requires forall atom | atom in Atoms(e) :: Known(ColsOf(atom), tables)
    ensures Known(ColsOf(e), tables)
    decreases e, 1
  {
    match e
    case Cmp(_, l, r) => KnownAtoms(l, tables); KnownAtoms(r, tables);
    case And(l, r) => KnownAtoms(l, tables); KnownAtoms(r, tables);
    case Or(l, r) => KnownAtoms(l, tables); KnownAtoms(r, tables);
    case Paren(inner) => KnownAtoms(inner, tables);
    case ValTuple(vals) => KnownAtomsOfAll(vals, tables);
    case _ => assert e in Atoms(e);
  }

  lemma {:induction false} KnownAtomsOfAll(es: seq<Expr>, tables: set<string>)
    requires forall atom | atom in AtomsOfAll(es) :: Known(ColsOf(atom), tables)
    ensures Known(ColsOfAll(es), tables)
    decreases es, 0
  {
    if es != [] {
      KnownAtoms(es[0], tables);
      KnownAtomsOfAll(es[1..], tables);
    }
  }

  /** The join conditions and filters together stand for a list of conditions. */
  ghost predicate Mean(joins: seq<ExprInfo>, wheres: seq<ExprInfo>, filters: seq<Expr>) {
    forall env :: TAnd(EvalInfos(joins, env), EvalInfos(wheres, env)) == EvalAll(filters, env)
  }

  ghost predicate SameMeaning(original: Expr, info: ExprInfo) {
    forall env :: Eval(info.expr, env) == Eval(original, env)
  }

  lemma InfoMeans(original: Expr, filter: Expr, info: ExprInfo)
    requires forall env :: Eval(filter, env) == Eval(SkipParenthesis(original), env)
    requires forall env :: Eval(info.expr, env) == Eval(filter, env)
    ensures SameMeaning(original, info)
  {
    forall env ensures Eval(info.expr, env) == Eval(original, env) {
      SkipKeepsMeaning(original, env);
    }
  }

  lemma EvalInfosGrows(infos: seq<ExprInfo>, info: ExprInfo, env: Env)
    ensures EvalInfos(infos + [info], env) == TAnd(EvalInfos(infos, env), Eval(info.expr, env))
  {
    assert (infos + [info])[..|infos|] == infos;
  }

  lemma TAndMoves(a: Truth, b: Truth, x: Truth)
    ensures TAnd(TAnd(a, x), b) == TAnd(TAnd(a, b), x) == TAnd(a, TAnd(b, x))
  {
  }

  lemma MeanMoreAt(joins: seq<ExprInfo>, wheres: seq<ExprInfo>, filters: seq<Expr>, e: Expr, info: ExprInfo, env: Env)
    requires TAnd(EvalInfos(joins, env), EvalInfos(wheres, env)) == EvalAll(filters, env)
    requires Eval(info.expr, env) == Eval(e, env)
    ensures TAnd(EvalInfos(joins + [info], env), EvalInfos(wheres, env)) == EvalAll(filters + [e], env)
    ensures TAnd(EvalInfos(joins, env), EvalInfos(wheres + [info], env)) == EvalAll(filters + [e], env)
  {
    EvalInfosGrows(joins, info, env);
    EvalInfosGrows(wheres, info, env);
    EvalAllGrows(filters, e, env);
    TAndMoves(EvalInfos(joins, env), EvalInfos(wheres, env), Eval(e, env));
  }

  lemma InfosExactMore(infos: seq<ExprInfo>, info: ExprInfo, atoms: set<Expr>)
    requires InfosExact(infos, atoms) && ValsAreExact(info) && ValsOver(info, atoms)
    ensures InfosExact(infos + [info], atoms)
  {
  }

  lemma MeanMore(joins: seq<ExprInfo>, wheres: seq<ExprInfo>, filters: seq<Expr>, i: nat, info: ExprInfo)
    requires i < |filters| && Mean(joins, wheres, filters[..i]) && SameMeaning(filters[i], info)
    ensures Mean(joins + [info], wheres, filters[..i + 1]) && Mean(joins, wheres + [info], filters[..i + 1])
  {
    assert filters[..i + 1] == filters[..i] + [filters[i]];
    forall env
      ensures TAnd(EvalInfos(joins + [info], env), EvalInfos(wheres, env)) == EvalAll(filters[..i + 1], env)
      ensures TAnd(EvalInfos(joins, env), EvalInfos(wheres + [info], env)) == EvalAll(filters[..i + 1], env)
    {
      MeanMoreAt(joins, wheres, filters[..i], filters[i], info, env);
    }
  }

  lemma MeanAll(joins: seq<ExprInfo>, wheres: seq<ExprInfo>, clause: Expr)
    requires var filters := SplitAnd([], clause); Mean(joins, wheres, filters[..|filters|])
    ensures forall env :: TAnd(EvalInfos(joins, env), EvalInfos(wheres, env)) == Eval(clause, env)
  {
    var filters := SplitAnd([], clause);
    assert filters[..|filters|] == filters;
    forall env ensures EvalAll(filters, env) == Eval(clause, env) {
      SplitsClause(clause, env);
    }
  }

  lemma SplitsClause(clause: Expr, env: Env)
    ensures EvalAll(SplitAnd([], clause), env) == Eval(clause, env)
  {
    SplitAndKeepsMeaning([], clause, env);
    TrueAnd(EvalAll([], env), Eval(clause, env));
  }

  lemma TrueAnd(a: Truth, b: Truth)
    requires a == True
    ensures TAnd(a, b) == b
  {
  }
}
