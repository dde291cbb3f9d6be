/** SQL aggregates, and why the aggregate of a split can be combined from the aggregates of its parts. */
module Aggregate {
  import opened Prelude
  import opened Seqs
  import opened Rows
  import opened AggregatePlan

  /** A value up to SQL equality. */
  datatype Num = NoNum | Num(r: real)

  function NumOf(v: Value): Num {
    if v.Null? then NoNum else Num(v.rank)
  }

  /** A computed number as a column value. */
  function Number(r: real): Value { Cell(r, r != 0.0, "") }

  // ----- The aggregates of SQL --------------------------------------------------------------

  function ArgOf(row: Row, arg: Option<nat>): seq<real> {
    if arg.None? then [1.0]
    else if At(row, arg.value).Null? then [] else [At(row, arg.value).rank]
  }

  /** The values that an aggregate sees: those that are not NULL. */
  function Args(rows: seq<Row>, arg: Option<nat>): seq<real> {
    FlatMap((row: Row) => ArgOf(row, arg), rows)
  }

  function SumOf(xs: seq<real>): real {
    if xs == [] then 0.0 else SumOf(xs[..|xs| - 1]) + xs[|xs| - 1]
  }

  function Smaller(a: real, b: real): real { if a <= b then a else b }

  function Larger(a: real, b: real): real { if a >= b then a else b }

  function LeastOf(xs: seq<real>): real
    requires xs != []
  {
    if |xs| == 1 then xs[0] else Smaller(LeastOf(xs[..|xs| - 1]), xs[|xs| - 1])
  }

  function GreatestOf(xs: seq<real>): real
    requires xs != []
  {
    if |xs| == 1 then xs[0] else Larger(GreatestOf(xs[..|xs| - 1]), xs[|xs| - 1])
  }

  lemma {:induction false} LeastIsLeast(xs: seq<real>)
    requires xs != []
    ensures LeastOf(xs) in xs && forall x | x in xs :: LeastOf(xs) <= x
  {
    if |xs| > 1 {
      var n := |xs| - 1;
      assert xs == xs[..n] + [xs[n]];
      LeastIsLeast(xs[..n]);
    }
  }

  lemma {:induction false} GreatestIsGreatest(xs: seq<real>)
    requires xs != []
    ensures GreatestOf(xs) in xs && forall x | x in xs :: GreatestOf(xs) >= x
  {
    if |xs| > 1 {
      var n := |xs| - 1;
      assert xs == xs[..n] + [xs[n]];
      GreatestIsGreatest(xs[..n]);
    }
  }

  lemma LeastIsUnique(xs: seq<real>, m: real)
    requires m in xs && forall x | x in xs :: m <= x
    ensures LeastOf(xs) == m
  {
    LeastIsLeast(xs);
  }

  lemma GreatestIsUnique(xs: seq<real>, m: real)
    requires m in xs && forall x | x in xs :: m >= x
    ensures GreatestOf(xs) == m
  {
    GreatestIsGreatest(xs);
  }

  function SqlAgg(fn: AggrType, xs: seq<real>): Num {
    if fn == Count then Num(|xs| as real)
    else if xs == [] then NoNum
    else if fn == Sum then Num(SumOf(xs))
    else if fn == Min then Num(LeastOf(xs))
    else if fn == Max then Num(GreatestOf(xs))
    else Num(SumOf(xs) / (|xs| as real))
  }

  // ----- Combining -----------------------------------------------------------------------------

  function CombineNum(fn: AggrType, a: Num, b: Num): Num {
    if a.NoNum? then b
    else if b.NoNum? then a
    else
      match fn
      case Min => Num(Smaller(a.r, b.r))
      case Max => Num(Larger(a.r, b.r))
      case _ => Num(a.r + b.r)
  }

  /** One step of an aggregation: a partial value is taken into the running one. */
  function Combine(fn: AggrType, a: Value, b: Value): (v: Value)
    ensures NumOf(v) == CombineNum(fn, NumOf(a), NumOf(b))
  {
    if a.Null? then b
    else if b.Null? then a
    else
      match fn
      case Min => if NullsafeCompare(a, b) < 0 then a else b
      case Max => if NullsafeCompare(a, b) < 0 then b else a
      case _ => Number(a.rank + b.rank)
  }

  function Divide(a: Value, b: Value): Value {
    if a.Null? || b.Null? || b.rank == 0.0 then Null else Number(a.rank / b.rank)
  }

  lemma {:induction false} SumAppends(xs: seq<real>, ys: seq<real>)
    ensures SumOf(xs + ys) == SumOf(xs) + SumOf(ys)
  {
    if ys == [] {
      assert xs + ys == xs;
    } else {
      assert (xs + ys)[..|xs + ys| - 1] == xs + ys[..|ys| - 1];
      SumAppends(xs, ys[..|ys| - 1]);
    }
  }

  lemma LeastAppends(xs: seq<real>, ys: seq<real>)
    requires xs != [] && ys != []
    ensures LeastOf(xs + ys) == Smaller(LeastOf(xs), LeastOf(ys))
  {
    LeastIsLeast(xs);
    LeastIsLeast(ys);
    LeastIsUnique(xs + ys, Smaller(LeastOf(xs), LeastOf(ys)));
  }

  lemma GreatestAppends(xs: seq<real>, ys: seq<real>)
    requires xs != [] && ys != []
    ensures GreatestOf(xs + ys) == Larger(GreatestOf(xs), GreatestOf(ys))
  {
    GreatestIsGreatest(xs);
    GreatestIsGreatest(ys);
    GreatestIsUnique(xs + ys, Larger(GreatestOf(xs), GreatestOf(ys)));
  }

  /** The aggregate of two parts, for all functions but avg. */
  lemma AggAppends(fn: AggrType, xs: seq<real>, ys: seq<real>)
    requires fn != Avg
    ensures SqlAgg(fn, xs + ys) == CombineNum(fn, SqlAgg(fn, xs), SqlAgg(fn, ys))
  {
    if ys == [] {
      assert xs + ys == xs;
    } else if xs == [] {
      assert xs + ys == ys;
    } else {
      SumAppends(xs, ys);
      LeastAppends(xs, ys);
      GreatestAppends(xs, ys);
    }
  }

  /** avg has to be combined from sum and count. */
  lemma AvgOfSumAndCount(xs: seq<real>, sum: Value, count: Value)
    requires NumOf(sum) == SqlAgg(Sum, xs) && NumOf(count) == SqlAgg(Count, xs)
    ensures NumOf(Divide(sum, count)) == SqlAgg(Avg, xs)
  {
  }

  // ----- Folding a column ----------------------------------------------------------------------

  /** The running value after the first row and the updates with the others. */
  function FoldCol(fn: AggrType, run: seq<Row>, c: nat): Value
    requires run != []
  {
    var n := |run| - 1;
    if n == 0 then At(run[0], c) else Combine(fn, FoldCol(fn, run[..n], c), At(run[n], c))
  }

  function FoldNum(fn: AggrType, run: seq<Row>, c: nat): Num {
    if run == [] then NoNum
    else CombineNum(fn, FoldNum(fn, run[..|run| - 1], c), NumOf(At(run[|run| - 1], c)))
  }

  lemma {:induction false} FoldIsNum(fn: AggrType, run: seq<Row>, c: nat)
    requires run != []
    ensures NumOf(FoldCol(fn, run, c)) == FoldNum(fn, run, c)
  {
    var n := |run| - 1;
    if n > 0 {
      FoldIsNum(fn, run[..n], c);
    } else {
      assert run[..n] == [];
    }
  }

  lemma {:induction false} FoldAppends(fn: AggrType, a: seq<Row>, b: seq<Row>, c: nat)
    ensures FoldNum(fn, a + b, c) == CombineNum(fn, FoldNum(fn, a, c), FoldNum(fn, b, c))
  {
    if b == [] {
      assert a + b == a;
    } else {
      assert (a + b)[..|a + b| - 1] == a + b[..|b| - 1];
      FoldAppends(fn, a, b[..|b| - 1], c);
    }
  }

  /** The order in which partial rows arrive does not matter. */
  lemma {:induction false} FoldPermutes(fn: AggrType, s: seq<Row>, t: seq<Row>, c: nat)
    requires multiset(s) == multiset(t)
    ensures FoldNum(fn, s, c) == FoldNum(fn, t, c)
    decreases |s|
  {
    if s == [] {
      assert multiset(t) == multiset{};
    } else {
      var n := |s| - 1;
      var x := s[n];
      assert s == s[..n] + [x];
      assert x in multiset(t);
      var a, b := SplitAt(t, x);
      assert multiset(s[..n]) == multiset(s) - multiset{x};
      FoldPermutes(fn, s[..n], a + b, c);
      FoldMoves(fn, a, b, x, c);
    }
  }

  lemma FoldMoves(fn: AggrType, a: seq<Row>, b: seq<Row>, x: Row, c: nat)
    ensures FoldNum(fn, a + [x] + b, c) == CombineNum(fn, FoldNum(fn, a + b, c), NumOf(At(x, c)))
  {
    FoldAppends(fn, a, b, c);
    FoldAppends(fn, a, [x], c);
    FoldAppends(fn, a + [x], b, c);
    assert FoldNum(fn, [x], c) == NumOf(At(x, c)) by { assert [x][..0] == []; }
    CombineSwaps(fn, FoldNum(fn, a, c), FoldNum(fn, b, c), NumOf(At(x, c)));
  }

  lemma CombineSwaps(fn: AggrType, a: Num, b: Num, x: Num)
    ensures CombineNum(fn, CombineNum(fn, a, x), b) == CombineNum(fn, CombineNum(fn, a, b), x)
  {
  }
}
