/** ORDER BY with LIMIT, pushed to the shards and done again over what they return. */
module OrderLimit {
  import opened Prelude
  import opened Seqs
  import opened Sorting
  import opened Rows

  // ----- The order ----------------------------------------------------------------------------

  datatype OrderBy = OrderBy(index: nat, desc: bool)

  function CompareBy(orders: seq<OrderBy>, a: Row, b: Row): int {
    if orders == [] then 0
    else
      var c := NullsafeCompare(At(a, orders[0].index), At(b, orders[0].index));
      if c == 0 then CompareBy(orders[1..], a, b) else if orders[0].desc then -c else c
  }

  function OrderLe(orders: seq<OrderBy>): (Row, Row) -> bool {
    (a, b) => CompareBy(orders, a, b) <= 0
  }

  lemma CompareByFlips(orders: seq<OrderBy>, a: Row, b: Row)
    ensures CompareBy(orders, a, b) == -CompareBy(orders, b, a)
  {
  }

  lemma {:induction false} CompareByChains(orders: seq<OrderBy>, a: Row, b: Row, c: Row)
    requires CompareBy(orders, a, b) <= 0 && CompareBy(orders, b, c) <= 0
    ensures CompareBy(orders, a, c) <= 0
  {
    if orders != [] {
      var x, y, z := At(a, orders[0].index), At(b, orders[0].index), At(c, orders[0].index);
      if NullsafeCompare(x, y) == 0 && NullsafeCompare(y, z) == 0 {
        CompareByChains(orders[1..], a, b, c);
      }
    }
  }

  lemma OrderLeIsTotalPreorder(orders: seq<OrderBy>)
    ensures TotalPreorder(OrderLe(orders))
  {
    forall a: Row, b: Row ensures OrderLe(orders)(a, b) || OrderLe(orders)(b, a) {
      CompareByFlips(orders, a, b);
    }
    forall a: Row, b: Row, c: Row | OrderLe(orders)(a, b) && OrderLe(orders)(b, c) ensures OrderLe(orders)(a, c) {
      CompareByChains(orders, a, b, c);
    }
  }

  // ----- The limit -----------------------------------------------------------------------------

  const INT64 := 0x8000_0000_0000_0000

  function Wrap64(n: int): int {
    (n + INT64) % (2 * INT64) - INT64
  }

  /** `rewritten` is the row count that the shards are asked for. */
  datatype LimitPlan = LimitPlan(offset: nat, limit: nat, rewritten: int)

  function PlanOf(offset: nat, limit: nat): LimitPlan { LimitPlan(offset, limit, Wrap64(offset + limit)) }

  /**
    The shards are asked for offset + limit rows exactly when the sum fits 64 bits, otherwise for a negative
    number.
  */
  lemma RewrittenFits(offset: nat, limit: nat)
    requires offset < INT64 && limit < INT64
    ensures PlanOf(offset, limit).rewritten == offset + limit <==> offset + limit < INT64
    ensures offset + limit >= INT64 ==> PlanOf(offset, limit).rewritten < 0
  {
  }

  /** LIMIT 9223372036854775807, 1 asks the shards for -9223372036854775808 rows. */
  lemma OverflowingLimit()
    ensures PlanOf(INT64 - 1, 1).rewritten == -INT64
  {
    assert (INT64 + INT64) % (2 * INT64) == 0;
  }

  /** The plan of LIMIT; the literals are refused beyond 64 bits. */
  method BuildLimit(offset: Option<nat>, rowcount: Option<nat>) returns (r: Result<LimitPlan>)
    ensures r.Err? <==> (offset.Some? && offset.value >= INT64) || (rowcount.Some? && rowcount.value >= INT64)
    ensures r.Ok? ==> var n := r.value.offset + r.value.limit;
      && r.value.offset == (if offset.Some? then offset.value else 0)
      && r.value.limit == (if rowcount.Some? then rowcount.value else 0)
      && r.value.offset < INT64 && r.value.limit < INT64
      && (if n < INT64 then r.value.rewritten == n else r.value.rewritten < 0)
  {
    var off, lim := 0, 0;
    if offset.Some? {
      if offset.value >= INT64 {
        return Err("value out of range");
      }
      off := offset.value;
    }
    if rowcount.Some? {
      if rowcount.value >= INT64 {
        return Err("value out of range");
      }
      lim := rowcount.value;
    }
    RewrittenFits(off, lim);
    r := Ok(PlanOf(off, lim));
  }

  function Min(a: nat, b: nat): nat { if a <= b then a else b }

  /** Rows offset to offset + limit, as many as there are. */
  function Slice<T>(s: seq<T>, offset: nat, limit: nat): seq<T> {
    s[Min(offset, |s|)..Min(offset + limit, |s|)]
  }

  function Take<T>(s: seq<T>, n: nat): seq<T> {
    s[..Min(n, |s|)]
  }

  // ----- Counting the rows up to a given one ---------------------------------------------

  function Below<T>(s: seq<T>, x: T, le: (T, T) -> bool): seq<T> {
    FlatMap(y => if le(y, x) then [y] else [], s)
  }

  function Count<T>(s: seq<T>, x: T, le: (T, T) -> bool): nat { |Below(s, x, le)| }

  lemma CountAppends<T>(s: seq<T>, t: seq<T>, x: T, le: (T, T) -> bool)
    ensures Count(s + t, x, le) == Count(s, x, le) + Count(t, x, le)
  {
    FlatMapAppends(y => if le(y, x) then [y] else [], s, t);
  }

  lemma CountPermutes<T>(s: seq<T>, t: seq<T>, x: T, le: (T, T) -> bool)
    requires multiset(s) == multiset(t)
    ensures Count(s, x, le) == Count(t, x, le)
  {
    var f := y => if le(y, x) then [y] else [];
    FlatMapPermutes(f, f, s, t);
    assert |multiset(Below(s, x, le))| == |multiset(Below(t, x, le))|;
  }

  /** In a sorted list the rows up to x come first. */
  lemma {:induction false} CountSorted<T(!new)>(s: seq<T>, x: T, le: (T, T) -> bool)
    requires TotalPreorder(le) && Sorted(s, le)
    ensures Count(s, x, le) <= |s|
    ensures forall i | 0 <= i < |s| :: le(s[i], x) <==> i < Count(s, x, le)
  {
    if s != [] {
      var n := |s| - 1;
      CountSorted(s[..n], x, le);
      assert Below(s, x, le) == Below(s[..n], x, le) + (if le(s[n], x) then [s[n]] else []);
      if le(s[n], x) {
        forall i | 0 <= i < n ensures le(s[..n][i], x) {
          assert le(s[i], s[n]);
        }
        assert n > 0 ==> le(s[..n][n - 1], x);
      }
    }
  }

  /** Cutting a sorted list caps its counts. */
  lemma CountTaken<T(!new)>(s: seq<T>, x: T, le: (T, T) -> bool, n: nat)
    requires TotalPreorder(le) && Sorted(s, le)
    ensures Count(Take(s, n), x, le) == Min(n, Count(s, x, le))
  {
    var t := Take(s, n);
    CountSorted(s, x, le);
    CountSorted(t, x, le);
    var c, d := Count(s, x, le), Count(t, x, le);
    if d < |t| {
      assert t[d] == s[d];
    }
    if 0 < d {
      assert t[d - 1] == s[d - 1];
    }
  }

  // ----- All shards ------------------------------------------------------------------------------

  /** What a shard answers: the first n of its rows in some sorted order. */
  ghost predicate FirstOf<T(!new)>(taken: seq<T>, rows: seq<T>, le: (T, T) -> bool, n: nat) {
    exists sorted :: SortOf(sorted, rows, le) && taken == Take(sorted, n)
  }

  ghost predicate Answers<T(!new)>(results: seq<seq<T>>, shards: seq<seq<T>>, le: (T, T) -> bool, n: nat) {
    |results| == |shards| && forall i | 0 <= i < |shards| :: FirstOf(results[i], shards[i], le, n)
  }

  lemma AnswerCounts<T(!new)>(taken: seq<T>, rows: seq<T>, x: T, le: (T, T) -> bool, n: nat)
    requires TotalPreorder(le) && FirstOf(taken, rows, le, n)
    ensures Count(taken, x, le) == Min(n, Count(rows, x, le)) && |taken| == Min(n, |rows|)
  {
    var sorted :| SortOf(sorted, rows, le) && taken == Take(sorted, n);
    CountTaken(sorted, x, le, n);
    CountPermutes(sorted, rows, x, le);
    assert |multiset(sorted)| == |multiset(rows)|;
  }

  /** Up to n, the answers together count as the shards do. */
  lemma {:induction false} AnswersCount<T(!new)>(results: seq<seq<T>>, shards: seq<seq<T>>, x: T, le: (T, T) -> bool,
                                                 n: nat)
    requires TotalPreorder(le) && Answers(results, shards, le, n)
    ensures Min(n, Count(Flatten(results), x, le)) == Min(n, Count(Flatten(shards), x, le))
    ensures Min(n, |Flatten(results)|) == Min(n, |Flatten(shards)|)
  {
    if shards != [] {
      var k := |shards| - 1;
      AnswersCount(results[..k], shards[..k], x, le, n);
      AnswerCounts(results[k], shards[k], x, le, n);
      CountAppends(Flatten(results[..k]), results[k], x, le);
      CountAppends(Flatten(shards[..k]), shards[k], x, le);
    }
  }

  /** Rows that no sort key tells apart. */
  predicate SameKey<T>(a: T, b: T, le: (T, T) -> bool) { le(a, b) && le(b, a) }

  predicate SameKeys<T>(s: seq<T>, t: seq<T>, le: (T, T) -> bool) {
    |s| == |t| && forall i | 0 <= i < |s| :: SameKey(s[i], t[i], le)
  }

  /** Sorted lists that count alike up to n have the same keys up to n. */
  lemma SortedAlike<T(!new)>(u: seq<T>, a: seq<T>, le: (T, T) -> bool, n: nat, i: nat)
    requires TotalPreorder(le) && Sorted(u, le) && Sorted(a, le) && i < n && i < |u| && i < |a|
    requires Min(n, Count(u, a[i], le)) == Min(n, Count(a, a[i], le))
    ensures le(u[i], a[i])
  {
    CountSorted(a, a[i], le);
    CountSorted(u, a[i], le);
    assert le(a[i], a[i]);
  }

  lemma SameFirst<T(!new)>(u: seq<T>, a: seq<T>, results: seq<seq<T>>, shards: seq<seq<T>>, le: (T, T) -> bool, n: nat)
    requires TotalPreorder(le) && Answers(results, shards, le, n)
    requires SortOf(u, Flatten(results), le) && SortOf(a, Flatten(shards), le)
    ensures SameKeys(Take(u, n), Take(a, n), le)
  {
    assert |multiset(u)| == |multiset(Flatten(results))| && |multiset(a)| == |multiset(Flatten(shards))|;
    if a != [] {
      AnswersCount(results, shards, a[0], le, n);
    } else if u != [] {
      AnswersCount(results, shards, u[0], le, n);
    }
    forall i | 0 <= i < Min(n, |u|) ensures SameKey(u[i], a[i], le) {
      AnswersCount(results, shards, a[i], le, n);
      CountPermutes(u, Flatten(results), a[i], le);
      CountPermutes(a, Flatten(shards), a[i], le);
      SortedAlike(u, a, le, n, i);
      AnswersCount(results, shards, u[i], le, n);
      CountPermutes(u, Flatten(results), u[i], le);
      CountPermutes(a, Flatten(shards), u[i], le);
      SortedAlike(a, u, le, n, i);
    }
  }

  lemma SlicedAlike<T>(u: seq<T>, a: seq<T>, le: (T, T) -> bool, offset: nat, limit: nat)
    requires SameKeys(Take(u, offset + limit), Take(a, offset + limit), le)
    ensures SameKeys(Slice(u, offset, limit), Slice(a, offset, limit), le)
  {
    var n := offset + limit;
    forall i | 0 <= i < |Slice(u, offset, limit)|
      ensures SameKey(Slice(u, offset, limit)[i], Slice(a, offset, limit)[i], le) {
      assert Take(u, n)[offset + i] == u[offset + i] && Take(a, n)[offset + i] == a[offset + i];
    }
  }

  /** Every row of the answers is a row of a shard, as often as it is there. */
  lemma {:induction false} AnswersAreRows<T(!new)>(results: seq<seq<T>>, shards: seq<seq<T>>, le: (T, T) -> bool,
                                                   n: nat)
    requires Answers(results, shards, le, n)
    ensures multiset(Flatten(results)) <= multiset(Flatten(shards))
  {
    if shards != [] {
      var k := |shards| - 1;
      AnswersAreRows(results[..k], shards[..k], le, n);
      assert FirstOf(results[k], shards[k], le, n);
      var sorted :| SortOf(sorted, shards[k], le) && results[k] == Take(sorted, n);
      SubBag(sorted, 0, Min(n, |sorted|));
    }
  }

  lemma SubBag<T>(s: seq<T>, i: nat, j: nat)
    requires i <= j <= |s|
    ensures multiset(s[i..j]) <= multiset(s)
  {
    assert s == s[..i] + s[i..j] + s[j..];
  }

  lemma SliceIsSubBag<T>(s: seq<T>, offset: nat, limit: nat)
    ensures multiset(Slice(s, offset, limit)) <= multiset(s)
  {
    SubBag(s, Min(offset, |s|), Min(offset + limit, |s|));
  }

  /** When the sort keys tell all rows apart the rows are the same, too. */
  lemma SameKeysSameRows<T(!new)>(s: seq<T>, t: seq<T>, all: seq<T>, le: (T, T) -> bool)
    requires SameKeys(s, t, le) && multiset(s) <= multiset(all) && multiset(t) <= multiset(all)
    requires KeysTellApart(all, le)
    ensures s == t
  {
    forall i | 0 <= i < |s| ensures s[i] == t[i] {
      assert s[i] in multiset(s) && t[i] in multiset(t);
      assert s[i] in multiset(all) && t[i] in multiset(all);
      assert SameKey(s[i], t[i], le);
    }
  }

  predicate KeysTellApart<T(==)>(all: seq<T>, le: (T, T) -> bool) {
    forall a, b | a in all && b in all && SameKey(a, b, le) :: a == b
  }

  // ----- The operators ------------------------------------------------------------------------

  /** The limit operator; `offset + limit` is computed in 64 bits, and a slice that ends before it starts panics. */
  method LimitRows(rows: seq<Row>, offset: nat, limit: nat) returns (r: Result<seq<Row>>)
    requires offset < INT64 && limit < INT64
    ensures r.Ok? <==> offset + limit < INT64
    ensures r.Ok? ==> r.value == Slice(rows, offset, limit)
  {
    RewrittenFits(offset, limit);
    var count := |rows|;
    var start: int := offset;
    var end: int := Wrap64(offset + limit);
    if start > count {
      start := count;
    }
    if end > count {
      end := count;
    }
    if end < start {
      return Err("slice bounds out of range");
    }
    return Ok(rows[start..end]);
  }

  /** The page has the sort keys of a slice of the sorted whole, and its rows if no ties are possible. */
  ghost predicate IsPage<T>(page: seq<T>, whole: seq<T>, all: seq<T>, le: (T, T) -> bool, offset: nat, limit: nat) {
    && SameKeys(page, Slice(whole, offset, limit), le)
    && (KeysTellApart(all, le) ==> page == Slice(whole, offset, limit))
  }

  lemma SlicedIsPage<T(!new)>(sorted: seq<T>, whole: seq<T>, all: seq<T>, le: (T, T) -> bool, offset: nat, limit: nat)
    requires SameKeys(Take(sorted, offset + limit), Take(whole, offset + limit), le)
    requires multiset(Slice(sorted, offset, limit)) <= multiset(all) && multiset(whole) == multiset(all)
    ensures IsPage(Slice(sorted, offset, limit), whole, all, le, offset, limit)
  {
    SlicedAlike(sorted, whole, le, offset, limit);
    if KeysTellApart(all, le) {
      SliceIsSubBag(whole, offset, limit);
      SameKeysSameRows(Slice(sorted, offset, limit), Slice(whole, offset, limit), all, le);
    }
  }

  lemma SlicedRows<T(!new)>(sorted: seq<T>, results: seq<seq<T>>, shards: seq<seq<T>>,
                            le: (T, T) -> bool, offset: nat, limit: nat)
    requires Answers(results, shards, le, offset + limit) && multiset(sorted) == multiset(Flatten(results))
    ensures multiset(Slice(sorted, offset, limit)) <= multiset(Flatten(shards))
  {
    AnswersAreRows(results, shards, le, offset + limit);
    SliceIsSubBag(sorted, offset, limit);
  }

  /**
    Sorting and limiting what the shards answer, in whatever order it arrives, gives the keys of the
    sorted and limited whole, for each order that sorting the whole may leave ties in, and the same
    rows if no ties are possible.
  */
  method OrderedPage(orders: seq<OrderBy>, plan: LimitPlan, results: seq<seq<Row>>, ghost shards: seq<seq<Row>>)
    returns (page: seq<Row>)
    requires plan.rewritten == plan.offset + plan.limit < INT64
    requires Answers(results, shards, OrderLe(orders), plan.rewritten)
    ensures forall whole | SortOf(whole, Flatten(shards), OrderLe(orders)) ::
      IsPage(page, whole, Flatten(shards), OrderLe(orders), plan.offset, plan.limit)
    ensures multiset(page) <= multiset(Flatten(shards))
  {
    var le := OrderLe(orders);
    OrderLeIsTotalPreorder(orders);
    var sorted := Sort(Flatten(results), le);
    var limited := LimitRows(sorted, plan.offset, plan.limit);
    page := limited.value;
    SlicedRows(sorted, results, shards, le, plan.offset, plan.limit);
    forall whole | SortOf(whole, Flatten(shards), le)
      ensures IsPage(page, whole, Flatten(shards), le, plan.offset, plan.limit)
    {
      SameFirst(sorted, whole, results, shards, le, plan.rewritten);
      SlicedIsPage(sorted, whole, Flatten(shards), le, plan.offset, plan.limit);
    }
  }
}
