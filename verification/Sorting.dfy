/** Sorting by a total preorder: all that the models assume of sort.Slice. */
module Sorting {

  ghost predicate TotalPreorder<T(!new)>(le: (T, T) -> bool) {
    && (forall x, y :: le(x, y) || le(y, x))
    && (forall x, y, z :: le(x, y) && le(y, z) ==> le(x, z))
  }

  predicate Sorted<T>(s: seq<T>, le: (T, T) -> bool) {
    forall i, j | 0 <= i < j < |s| :: le(s[i], s[j])
  }

  /** Some sorted permutation, with ties in any order. */
  ghost predicate SortOf<T>(sorted: seq<T>, s: seq<T>, le: (T, T) -> bool) {
    multiset(sorted) == multiset(s) && Sorted(sorted, le)
  }

  function Insert<T>(x: T, s: seq<T>, le: (T, T) -> bool): seq<T> {
    if s == [] then [x]
    else if le(x, s[0]) then [x] + s
    else [s[0]] + Insert(x, s[1..], le)
  }

  lemma ConsSorts<T(!new)>(x: T, s: seq<T>, le: (T, T) -> bool)
    requires TotalPreorder(le) && Sorted(s, le) && (s != [] ==> le(x, s[0]))
    ensures Sorted([x] + s, le)
  {
    forall j | 0 <= j < |s| ensures le(x, s[j]) {
      assert j > 0 ==> le(s[0], s[j]);
    }
  }

  lemma {:induction false} InsertSorts<T(!new)>(x: T, s: seq<T>, le: (T, T) -> bool)
    requires TotalPreorder(le) && Sorted(s, le)
    ensures SortOf(Insert(x, s, le), [x] + s, le)
  {
    if s == [] || le(x, s[0]) {
      ConsSorts(x, s, le);
    } else {
      InsertSorts(x, s[1..], le);
      ConsSorts(s[0], Insert(x, s[1..], le), le);
      InsertedBag(x, s, Insert(x, s[1..], le));
    }
  }

  lemma InsertedBag<T>(x: T, s: seq<T>, tail: seq<T>)
    requires s != [] && multiset(tail) == multiset([x] + s[1..])
    ensures multiset([s[0]] + tail) == multiset([x] + s)
  {
    assert s == [s[0]] + s[1..];
  }

  /** Stands for sort.Slice: callers know nothing of the result but the contract. */
  method Sort<T(!new)>(s: seq<T>, le: (T, T) -> bool) returns (sorted: seq<T>)
    requires TotalPreorder(le)
    ensures SortOf(sorted, s, le)
  {
    sorted := [];
    for i := 0 to |s|
      invariant SortOf(sorted, s[..i], le)
    {
      InsertSorts(s[i], sorted, le);
      assert s[..i + 1] == s[..i] + [s[i]];
      sorted := Insert(s[i], sorted, le);
    }
    assert s[..|s|] == s;
  }
}
