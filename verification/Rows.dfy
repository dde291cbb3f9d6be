/** Column values, rows, and the comparison that the executor sorts and joins by. */
module Rows {
  import opened Sorting

  /**
    A column value. `rank` is its place in the order of NullsafeCompare; distinct values may share a
    rank (1 and 1.0), so the order is a total preorder. `truthy` is what CastToBool makes of it.
  */
  datatype Value = Null | Cell(rank: real, truthy: bool, text: string)

  type Row = seq<Value>

  /** -1, 0 or 1; NULL is below every other value and equal to itself. */
  function NullsafeCompare(a: Value, b: Value): int {
    match (a, b)
    case (Null, Null) => 0
    case (Null, Cell(_, _, _)) => -1
    case (Cell(_, _, _), Null) => 1
    case (Cell(x, _, _), Cell(y, _, _)) => if x < y then -1 else if x == y then 0 else 1
  }

  predicate CastToBool(v: Value) { v.Cell? && v.truthy }

  /** The value of a column; the planner never asks for a column that the row does not have. */
  function At(row: Row, index: nat): Value {
    if index < |row| then row[index] else Null
  }

  function KeyOf(row: Row, keys: seq<nat>): (key: seq<Value>)
    ensures |key| == |keys|
    ensures forall k | 0 <= k < |keys| :: key[k] == At(row, keys[k])
  {
    if keys == [] then [] else [At(row, keys[0])] + KeyOf(row, keys[1..])
  }

  /** Lexicographic comparison of two keys of the same length. */
  function CompareKeys(x: seq<Value>, y: seq<Value>): int
    requires |x| == |y|
  {
    if x == [] then 0
    else
      var c := NullsafeCompare(x[0], y[0]);
      if c != 0 then c else CompareKeys(x[1..], y[1..])
  }

  lemma CompareFlips(x: seq<Value>, y: seq<Value>)
    requires |x| == |y|
    ensures CompareKeys(x, y) == -CompareKeys(y, x)
  {
  }

  lemma {:induction false} CompareChains(x: seq<Value>, y: seq<Value>, z: seq<Value>)
    requires |x| == |y| == |z|
    requires CompareKeys(x, y) <= 0 && CompareKeys(y, z) <= 0
    ensures CompareKeys(x, z) <= 0
    ensures CompareKeys(x, y) < 0 || CompareKeys(y, z) < 0 ==> CompareKeys(x, z) < 0
  {
    if x != [] && NullsafeCompare(x[0], y[0]) == 0 && NullsafeCompare(y[0], z[0]) == 0 {
      CompareChains(x[1..], y[1..], z[1..]);
    }
  }

  /** Keys compare equal exactly when all their columns do. */
  lemma {:induction false} CompareZero(x: seq<Value>, y: seq<Value>)
    requires |x| == |y|
    ensures CompareKeys(x, y) == 0 <==> forall k | 0 <= k < |x| :: NullsafeCompare(x[k], y[k]) == 0
  {
    if x != [] {
      CompareZero(x[1..], y[1..]);
      if NullsafeCompare(x[0], y[0]) == 0 {
        assert forall k | 0 < k < |x| :: x[k] == x[1..][k - 1] && y[k] == y[1..][k - 1];
        if CompareKeys(x, y) == 0 {
          forall k | 0 <= k < |x| ensures NullsafeCompare(x[k], y[k]) == 0 {
            if k > 0 {
              assert x[1..][k - 1] == x[k];
            }
          }
        }
      }
    }
  }

  // ----- Sorting by key columns -------------------------------------------------

  /** The order in which the executor sorts rows by key columns. */
  function KeyLe(keys: seq<nat>): (Row, Row) -> bool {
    (a, b) => CompareKeys(KeyOf(a, keys), KeyOf(b, keys)) <= 0
  }

  lemma KeyLeIsTotalPreorder(keys: seq<nat>)
    ensures TotalPreorder(KeyLe(keys))
  {
    forall a: Row, b: Row ensures KeyLe(keys)(a, b) || KeyLe(keys)(b, a) {
      CompareFlips(KeyOf(a, keys), KeyOf(b, keys));
    }
    forall a: Row, b: Row, c: Row | KeyLe(keys)(a, b) && KeyLe(keys)(b, c) ensures KeyLe(keys)(a, c) {
      CompareChains(KeyOf(a, keys), KeyOf(b, keys), KeyOf(c, keys));
    }
  }
}
