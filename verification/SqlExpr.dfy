/** Boolean SQL expressions and their three-valued meaning on one row. */
module SqlExpr {
  /** A literal; literals with the same rank are equal in SQL (1 and 1.0). */
  datatype SqlVal = SqlVal(typ: SqlType, text: string, rank: real)

  datatype SqlType = IntVal | FloatVal | StrVal | OtherVal

  datatype ColName = ColName(name: string, table: string)

  datatype CmpOp = Eq | In | OtherOp(op: string)

  /**
    `Opaque` is any expression the planner does not look into, with the columns it mentions; it may hold a
    subquery.
  */
  datatype Expr =
    | Col(col: ColName)
    | Lit(val: SqlVal)
    | ValTuple(vals: seq<Expr>)
    | Cmp(op: CmpOp, left: Expr, right: Expr)
    | And(left: Expr, right: Expr)
    | Or(left: Expr, right: Expr)
    | Paren(inner: Expr)
    | Opaque(id: nat, cols: seq<ColName>, subquery: bool)

  function LowerChar(c: char): char {
    if 'A' <= c <= 'Z' then ((c as int) + 32) as char else c
  }

  function Lower(s: string): string {
    if s == "" then "" else [LowerChar(s[0])] + Lower(s[1..])
  }

  lemma {:induction false} LowerTwice(s: string)
    ensures Lower(Lower(s)) == Lower(s)
  {
    if s != "" {
      LowerTwice(s[1..]);
    }
  }

  /** Column names are compared without case, qualifiers as they are. */
  predicate SameCol(a: ColName, b: ColName) {
    Lower(a.name) == Lower(b.name) && a.table == b.table
  }

  // ----- Three-valued logic ----------------------------------------------------------

  datatype Truth = True | False | Unknown

  function TAnd(a: Truth, b: Truth): Truth {
    if a == False || b == False then False else if a == True && b == True then True else Unknown
  }

  function TOr(a: Truth, b: Truth): Truth {
    if a == True || b == True then True else if a == False && b == False then False else Unknown
  }

  datatype Scalar = Null | Value(rank: real)

  function SqlEq(a: Scalar, b: Scalar): Truth {
    if a.Null? || b.Null? then Unknown else if a.rank == b.rank then True else False
  }

  /** A row: the values of its columns, and whatever the expressions that are not looked into evaluate to. */
  datatype Env = Env(cols: map<(string, string), Scalar>, scalars: map<Expr, Scalar>, truths: map<Expr, Truth>)

  function ColValue(col: ColName, env: Env): Scalar {
    var key := (Lower(col.name), col.table);
    if key in env.cols then env.cols[key] else Null
  }

  function EvalScalar(e: Expr, env: Env): Scalar {
    match e
    case Col(col) => ColValue(col, env)
    case Lit(val) => Value(val.rank)
    case Paren(inner) => EvalScalar(inner, env)
    case _ => if e in env.scalars then env.scalars[e] else Null
  }

  function EvalTruth(e: Expr, env: Env): Truth {
    if e in env.truths then env.truths[e] else Unknown
  }

  /** x IN (v1, ..., vn) is x = v1 OR ... OR x = vn. */
  function EvalIn(x: Scalar, vals: seq<Expr>, env: Env): Truth {
    if vals == [] then False
    else TOr(EvalIn(x, vals[..|vals| - 1], env), SqlEq(x, EvalScalar(vals[|vals| - 1], env)))
  }

  function Eval(e: Expr, env: Env): Truth {
    match e
    case And(l, r) => TAnd(Eval(l, env), Eval(r, env))
    case Or(l, r) => TOr(Eval(l, env), Eval(r, env))
    case Paren(inner) => Eval(inner, env)
    case Cmp(Eq, l, r) => SqlEq(EvalScalar(l, env), EvalScalar(r, env))
    case Cmp(In, l, ValTuple(vals)) => EvalIn(EvalScalar(l, env), vals, env)
    case _ => EvalTruth(e, env)
  }

  /** The conjunction and the disjunction of a list. */
  function EvalAll(es: seq<Expr>, env: Env): Truth {
    if es == [] then True else TAnd(EvalAll(es[..|es| - 1], env), Eval(es[|es| - 1], env))
  }

  function EvalAny(es: seq<Expr>, env: Env): Truth {
    if es == [] then False else TOr(EvalAny(es[..|es| - 1], env), Eval(es[|es| - 1], env))
  }

  lemma {:induction false} EvalAnyAppends(a: seq<Expr>, b: seq<Expr>, env: Env)
    ensures EvalAny(a + b, env) == TOr(EvalAny(a, env), EvalAny(b, env))
  {
    if b == [] {
      assert a + b == a;
    } else {
      assert (a + b)[..|a + b| - 1] == a + b[..|b| - 1];
      EvalAnyAppends(a, b[..|b| - 1], env);
    }
  }

  /** A conjunction is true only if all its members are. */
  lemma {:induction false} AllTrue(es: seq<Expr>, env: Env)
    ensures EvalAll(es, env) == True <==> forall i | 0 <= i < |es| :: Eval(es[i], env) == True
  {
    if es != [] {
      AllTrue(es[..|es| - 1], env);
    }
  }

  /** x IN a list of literals is true only if x equals one of them. */
  lemma {:induction false} InIsSomeEqual(x: Scalar, vals: seq<Expr>, env: Env)
    requires EvalIn(x, vals, env) == True
    ensures exists i :: 0 <= i < |vals| && SqlEq(x, EvalScalar(vals[i], env)) == True
  {
    if SqlEq(x, EvalScalar(vals[|vals| - 1], env)) != True {
      InIsSomeEqual(x, vals[..|vals| - 1], env);
    }
  }

  // ----- What an expression is made of -------------------------------------------------

  /** The equality of a column and a literal, with the name of the column in lower case. */
  function ColEq(col: ColName, val: SqlVal): Expr {
    Cmp(Eq, Col(ColName(Lower(col.name), col.table)), Lit(val))
  }

  /** The equalities of a column and a literal that a comparison offers. */
  function Equalities(op: CmpOp, l: Expr, r: Expr): set<Expr> {
    if op == Eq && l.Col? && r.Lit? then {ColEq(l.col, r.val)}
    else if op == Eq && l.Lit? && r.Col? then {ColEq(r.col, l.val)}
    else if op == In && l.Col? && r.ValTuple? then
      set i | 0 <= i < |r.vals| && r.vals[i].Lit? :: ColEq(l.col, r.vals[i].val)
    else {}
  }

  /** The columns, literals and unread parts of an expression, and the equalities that it offers. */
  function Atoms(e: Expr): set<Expr>
    decreases e, 1
  {
    match e
    case ValTuple(vals) => AtomsOfAll(vals)
    case Cmp(op, l, r) => Atoms(l) + Atoms(r) + Equalities(op, l, r)
    case And(l, r) => Atoms(l) + Atoms(r)
    case Or(l, r) => Atoms(l) + Atoms(r)
    case Paren(inner) => Atoms(inner)
    case _ => {e}
  }

  function AtomsOfAll(es: seq<Expr>): set<Expr>
    decreases es, 0
  {
    if es == [] then {} else Atoms(es[0]) + AtomsOfAll(es[1..])
  }

  /** The expression is made of some atoms and of no others. */
  predicate Over(e: Expr, atoms: set<Expr>) { Atoms(e) <= atoms }

  predicate OverAll(es: seq<Expr>, atoms: set<Expr>) {
    forall i | 0 <= i < |es| :: Over(es[i], atoms)
  }

  lemma {:induction false} AtomsOfMember(es: seq<Expr>, k: nat)
    requires k < |es|
    ensures Atoms(es[k]) <= AtomsOfAll(es)
  {
    if k > 0 {
      AtomsOfMember(es[1..], k - 1);
    }
  }

  lemma {:induction false} TupleIsOver(es: seq<Expr>, atoms: set<Expr>)
    ensures AtomsOfAll(es) <= atoms <==> OverAll(es, atoms)
  {
    if es != [] {
      TupleIsOver(es[1..], atoms);
      assert forall i | 0 < i < |es| :: es[i] == es[1..][i - 1];
      if OverAll(es, atoms) {
        assert Over(es[0], atoms);
        forall i | 0 <= i < |es[1..]| ensures Over(es[1..][i], atoms) {
          assert Over(es[i + 1], atoms);
        }
      }
      if AtomsOfAll(es) <= atoms {
        forall i | 0 <= i < |es| ensures Over(es[i], atoms) {
          if i > 0 {
            assert Over(es[1..][i - 1], atoms);
          }
        }
      }
    }
  }
}
