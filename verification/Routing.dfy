/** Routing by the WHERE clause: which segments a statement is sent to, and why no row is missed. */
module Routing {
  import opened Prelude
  import opened SqlExpr
  import opened Rewriting
  import opened HashKeys
  import opened HashMap
  import opened Router

  predicate NameMatch(e: Expr, table: string, shardkey: string) {
    e.Col? && (e.col.table == "" || e.col.table == table) && Lower(e.col.name) == Lower(shardkey)
  }

  /** A row of the table on which the shard key column, however it is written, has the value of `key`. */
  ghost predicate RowWithKey(env: Env, table: string, shardkey: string, key: SqlVal) {
    forall col: ColName | NameMatch(Col(col), table, shardkey) :: ColValue(col, env) == Value(key.rank)
  }

  /** Literals of a set that are equal in SQL have the same slot, when both have one. */
  ghost predicate Congruent(p: Partition, keys: iset<SqlVal>) {
    forall a, b | a in keys && b in keys && a.rank == b.rank && GetIndex(p, a).Ok? && GetIndex(p, b).Ok? ::
      GetIndex(p, a) == GetIndex(p, b)
  }

  /** The expression compares the shard key with the literal. */
  predicate KeyLit(e: Expr, table: string, shardkey: string, v: SqlVal) {
    ColEq(ColName(shardkey, ""), v) in Atoms(e) || ColEq(ColName(shardkey, table), v) in Atoms(e)
  }

  /** The literals that the condition compares the key with and that are equal to it in SQL have its slot. */
  ghost predicate Agrees(p: Partition, table: string, shardkey: string, key: SqlVal, where: Expr) {
    forall v: SqlVal | KeyLit(where, table, shardkey, v) && v.rank == key.rank && GetIndex(p, v).Ok? ::
      GetIndex(p, v) == GetIndex(p, key)
  }

  lemma CongruentAgrees(p: Partition, keys: iset<SqlVal>, table: string, shardkey: string, key: SqlVal, where: Expr)
    requires Congruent(p, keys) && key in keys && GetIndex(p, key).Ok? && LitsIn(where, table, shardkey, keys)
    ensures Agrees(p, table, shardkey, key, where)
  {
  }

  ghost predicate LitsIn(e: Expr, table: string, shardkey: string, keys: iset<SqlVal>) {
    forall v: SqlVal | KeyLit(e, table, shardkey, v) :: v in keys
  }

  /** All equalities of one expression are in another. */
  ghost predicate LitsOver(e: Expr, where: Expr) {
    forall col: ColName, v: SqlVal | ColEq(col, v) in Atoms(e) :: ColEq(col, v) in Atoms(where)
  }

  /**
    Some row satisfies the condition and lives outside of the segments, although its key is hashed like
    the literals that it equals.
  */
  ghost predicate Misses(p: Partition, table: string, shardkey: string, where: Expr, segs: seq<Segment>) {
    exists env, key :: RowWithKey(env, table, shardkey, key) && HasOwner(p, key) &&
      Agrees(p, table, shardkey, key, where)
                    && Eval(where, env) == True && Owner(p, key) !in segs
  }

  lemma EqualKeySameOwner(p: Partition, table: string, shardkey: string, where: Expr, col: ColName, key: SqlVal,
                          val: SqlVal)
    requires Agrees(p, table, shardkey, key, where) && NameMatch(Col(col), table, shardkey)
    requires ColEq(col, val) in Atoms(where)
    requires HasOwner(p, key) && HasOwner(p, val) && key.rank == val.rank
    ensures Owner(p, key) == Owner(p, val)
  {
    LowerTwice(shardkey);
    LowerTwice(col.name);
    assert KeyLit(where, table, shardkey, val);
  }

  /** Restricting a condition further loses no rows. */
  lemma PieceRoutes(p: Partition, table: string, shardkey: string, where: Expr, piece: Expr, segs: seq<Segment>)
    requires forall env :: Eval(where, env) == True ==> Eval(piece, env) == True
    requires LitsOver(piece, where) && !Misses(p, table, shardkey, piece, segs)
    ensures !Misses(p, table, shardkey, where, segs)
  {
    forall env, key | RowWithKey(env, table, shardkey, key) && HasOwner(p, key) &&
      Agrees(p, table, shardkey, key, where) && Eval(where, env) == True
      ensures Owner(p, key) in segs
    {
      assert Agrees(p, table, shardkey, key, piece);
    }
  }

  lemma EqualityRoutes(p: Partition, table: string, shardkey: string, col: Expr, val: SqlVal)
    requires NameMatch(col, table, shardkey) && HasOwner(p, val)
    ensures !Misses(p, table, shardkey, Cmp(Eq, col, Lit(val)), [Owner(p, val)])
  {
    var where := Cmp(Eq, col, Lit(val));
    assert ColEq(col.col, val) in Equalities(Eq, col, Lit(val));
    forall env, key | RowWithKey(env, table, shardkey, key) && HasOwner(p, key) &&
      Agrees(p, table, shardkey, key, where) && Eval(where, env) == True
      ensures Owner(p, key) in [Owner(p, val)]
    {
      assert ColValue(col.col, env) == Value(key.rank);
      EqualKeySameOwner(p, table, shardkey, where, col.col, key, val);
    }
  }

  // ----- When equal literals have the same slot -----------------------------------------------

  /** Literals share their slot under every jump hash exactly when they are hashed as the same number or text. */
  lemma SameSlotExactly(p: Partition, a: SqlVal, b: SqlVal)
    requires p.HashPart? && p.slots >= 2 && KeyOf(a, p.hash.float).Some? && KeyOf(b, p.hash.float).Some?
    ensures (forall jump | IntoSlots(Hasher(jump, p.hash.float), p.slots) :: SameSlot(p, jump, a, b)) <==>
            KeyOf(a, p.hash.float) == KeyOf(b, p.hash.float)
  {
    var x, y := KeyOf(a, p.hash.float).value, KeyOf(b, p.hash.float).value;
    if x != y {
      var jump := (key: HashKey) => if key == x then 0 else 1;
      assert IntoSlots(Hasher(jump, p.hash.float), p.slots);
      assert !SameSlot(p, jump, a, b);
    }
  }

  predicate SameSlot(p: Partition, jump: HashKey -> int, a: SqlVal, b: SqlVal)
    requires p.HashPart?
  {
    GetIndex(p.(hash := Hasher(jump, p.hash.float)), a) == GetIndex(p.(hash := Hasher(jump, p.hash.float)), b)
  }

  /** Equal literals of the set are hashed as the same number or text. */
  ghost predicate HashedAlike(keys: iset<SqlVal>, float: string -> Option<nat>) {
    forall a, b | a in keys && b in keys && a.rank == b.rank && KeyOf(a, float).Some? && KeyOf(b, float).Some? ::
      KeyOf(a, float) == KeyOf(b, float)
  }

  /** Whatever the jump hash, what routing needs of the literals of a table is that equal ones are hashed alike. */
  lemma CongruentExactly(p: Partition, keys: iset<SqlVal>)
    requires p.HashPart? && p.slots >= 2
    ensures (forall jump | IntoSlots(Hasher(jump, p.hash.float), p.slots) :: CongruentUnder(p, jump, keys)) <==>
            HashedAlike(keys, p.hash.float)
  {
    if HashedAlike(keys, p.hash.float) {
      forall jump | IntoSlots(Hasher(jump, p.hash.float), p.slots) ensures CongruentUnder(p, jump, keys) {
      }
    } else {
      var a, b :| a in keys && b in keys && a.rank == b.rank && KeyOf(a, p.hash.float).Some? &&
        KeyOf(b, p.hash.float).Some?
               && KeyOf(a, p.hash.float) != KeyOf(b, p.hash.float);
      SameSlotExactly(p, a, b);
      var jump :| IntoSlots(Hasher(jump, p.hash.float), p.slots) && !SameSlot(p, jump, a, b);
      assert !CongruentUnder(p, jump, keys);
    }
  }

  ghost predicate CongruentUnder(p: Partition, jump: HashKey -> int, keys: iset<SqlVal>)
    requires p.HashPart?
  {
    Congruent(p.(hash := Hasher(jump, p.hash.float)), keys)
  }

  /** Integers as clients print them are hashed alike, under any jump hash. */
  lemma PlainIntsCongruent(p: Partition)
    requires p.HashPart?
    ensures Congruent(p, iset v | PlainInt(v))
  {
    forall a: SqlVal, b: SqlVal | PlainInt(a) && PlainInt(b) && a.rank == b.rank
      ensures GetIndex(p, a) == GetIndex(p, b) {
      PlainIntsAgree(a, b, p.hash.float);
    }
  }

  /** So are strings under a collation that tells texts apart. */
  lemma TextsCongruent(p: Partition, order: string -> real)
    requires forall s, t | order(s) == order(t) :: s == t
    ensures Congruent(p, iset v: SqlVal | v.typ == StrVal && v.rank == order(v.text))
  {
  }

  /** The row on which the shard key has the value of `key`. */
  function KeyRow(table: string, shardkey: string, key: SqlVal): Env {
    Env(map[(Lower(shardkey), "") := Value(key.rank), (Lower(shardkey), table) := Value(key.rank)], map[], map[])
  }

  /** Where a row with this key lives, the query that compares the key with `val` is sent. */
  ghost predicate Finds(p: Partition, table: string, shardkey: string, key: SqlVal, val: SqlVal) {
    && HasOwner(p, key) && HasOwner(p, val)
    && forall env | RowWithKey(env, table, shardkey, key) &&
      Eval(Cmp(Eq, Col(ColName(shardkey, table)), Lit(val)), env) == True ::
         Owner(p, key) in [Owner(p, val)]
  }

  lemma FindsSameOwner(p: Partition, table: string, shardkey: string, key: SqlVal, val: SqlVal)
    requires HasOwner(p, key) && HasOwner(p, val) && key.rank == val.rank
    ensures Finds(p, table, shardkey, key, val) <==> Owner(p, key) == Owner(p, val)
  {
    var env := KeyRow(table, shardkey, key);
    assert RowWithKey(env, table, shardkey, key);
    assert Eval(Cmp(Eq, Col(ColName(shardkey, table)), Lit(val)), env) == True;
  }

  ghost predicate FindsUnder(p: Partition, jump: HashKey -> int, table: string, shardkey: string, key: SqlVal,
                             val: SqlVal)
    requires p.HashPart?
  {
    Finds(p.(hash := Hasher(jump, p.hash.float)), table, shardkey, key, val)
  }

  /**
    Equality routing with a literal finds the rows that were inserted under an equal literal, whatever the
    jump hash, exactly when the type switch hashes both as the same number or text. There must be two
    segments to tell apart.
  */
  lemma EqualityRoutesExactly(p: Partition, table: string, shardkey: string, key: SqlVal, val: SqlVal, i: nat, j: nat)
    requires Router.Valid(p) && p.HashPart? && i < p.slots && j < p.slots && p.partitions[i] != p.partitions[j]
    requires key.rank == val.rank && KeyOf(key, p.hash.float).Some? && KeyOf(val, p.hash.float).Some?
    ensures (forall jump | IntoSlots(Hasher(jump, p.hash.float), p.slots) ::
      FindsUnder(p, jump, table, shardkey, key, val)) <==>
            KeyOf(key, p.hash.float) == KeyOf(val, p.hash.float)
  {
    var x, y := KeyOf(key, p.hash.float).value, KeyOf(val, p.hash.float).value;
    if x == y {
      forall jump | IntoSlots(Hasher(jump, p.hash.float), p.slots)
        ensures FindsUnder(p, jump, table, shardkey, key, val) {
        FindsSameOwner(p.(hash := Hasher(jump, p.hash.float)), table, shardkey, key, val);
      }
    } else {
      var jump := (k: HashKey) => if k == x then i else j;
      assert IntoSlots(Hasher(jump, p.hash.float), p.slots);
      FindsSameOwner(p.(hash := Hasher(jump, p.hash.float)), table, shardkey, key, val);
      assert !FindsUnder(p, jump, table, shardkey, key, val);
    }
  }

  /** A row inserted under 1 can be missed by k = '1', and one inserted under 010 by k = 10. */
  lemma EqualLiteralsCanMiss(p: Partition, table: string, shardkey: string, i: nat, j: nat)
    requires Router.Valid(p) && p.HashPart? && i < p.slots && j < p.slots && p.partitions[i] != p.partitions[j]
    ensures exists jump :: IntoSlots(Hasher(jump, p.hash.float), p.slots)
              && !FindsUnder(p, jump, table, shardkey, SqlVal(IntVal, "1", 1.0), SqlVal(StrVal, "1", 1.0))
    ensures exists jump :: IntoSlots(Hasher(jump, p.hash.float), p.slots)
              && !FindsUnder(p, jump, table, shardkey, SqlVal(IntVal, "010", 10.0), SqlVal(IntVal, "10", 10.0))
  {
    NumberAndString(p.hash.float);
    EqualityRoutesExactly(p, table, shardkey, SqlVal(IntVal, "1", 1.0), SqlVal(StrVal, "1", 1.0), i, j);
    OctalAndDecimal(p.hash.float);
    EqualityRoutesExactly(p, table, shardkey, SqlVal(IntVal, "010", 10.0), SqlVal(IntVal, "10", 10.0), i, j);
  }

  // ----- Lists of literals ---------------------------------------------------------------------

  /** The literals of an IN list, and the slots they hash to. */
  lemma InRoutes(p: Partition, table: string, shardkey: string, col: Expr, vals: seq<Expr>, segs: seq<Segment>)
    requires NameMatch(col, table, shardkey)
    requires forall i | 0 <= i < |vals| :: vals[i].Lit? && HasOwner(p, vals[i].val) && Owner(p, vals[i].val) in segs
    ensures !Misses(p, table, shardkey, Cmp(In, col, ValTuple(vals)), segs)
  {
    var where := Cmp(In, col, ValTuple(vals));
    forall env, key | RowWithKey(env, table, shardkey, key) && HasOwner(p, key) &&
      Agrees(p, table, shardkey, key, where) && Eval(where, env) == True
      ensures Owner(p, key) in segs
    {
      assert ColValue(col.col, env) == Value(key.rank);
      InIsSomeEqual(Value(key.rank), vals, env);
      var i :| 0 <= i < |vals| && SqlEq(Value(key.rank), EvalScalar(vals[i], env)) == True;
      assert ColEq(col.col, vals[i].val) in Equalities(In, col, ValTuple(vals));
      EqualKeySameOwner(p, table, shardkey, where, col.col, key, vals[i].val);
    }
  }

  lemma AllSegmentsRoute(p: Partition, table: string, shardkey: string, where: Expr)
    requires Valid(p)
    ensures !Misses(p, table, shardkey, where, p.segments)
  {
    forall env, key | RowWithKey(env, table, shardkey, key) && HasOwner(p, key) ensures Owner(p, key) in p.segments {
      IndexHasSegment(p, key);
    }
  }

  lemma PieceFollows(where: Expr, i: nat, piece: Expr)
    requires i < |SplitAnd([], where)|
    requires forall env :: Eval(piece, env) == Eval(SkipParenthesis(SplitAnd([], where)[i]), env)
    ensures forall env :: Eval(where, env) == True ==> Eval(piece, env) == True
  {
    forall env | Eval(where, env) == True ensures Eval(piece, env) == True {
      var pieces := SplitAnd([], where);
      SplitAndKeepsMeaning([], where, env);
      AllTrue(pieces, env);
      SkipKeepsMeaning(pieces[i], env);
    }
  }

  // ----- UPDATE and DELETE ------------------------------------------------------------------

  /** The slots of an IN list; None when a member is not a literal. */
  method IndexesOf(p: Partition, vals: seq<Expr>) returns (r: Result<Option<seq<int>>>)
    ensures r.Ok? && r.value.Some? ==>
      && |r.value.value| == |vals|
      && forall i | 0 <= i < |vals| :: vals[i].Lit? && GetIndex(p, vals[i].val) == Ok(r.value.value[i])
    ensures r.Ok? && r.value.None? ==> exists i :: 0 <= i < |vals| && !vals[i].Lit?
    ensures r.Err? ==> exists i :: 0 <= i < |vals| && vals[i].Lit? && GetIndex(p, vals[i].val).Err?
  {
    var idxs := [];
    for i := 0 to |vals|
      invariant |idxs| == i && forall k | 0 <= k < i :: vals[k].Lit? && GetIndex(p, vals[k].val) == Ok(idxs[k])
    {
      if !vals[i].Lit? {
        return Ok(None);
      }
      var idx := GetIndex(p, vals[i].val);
      if idx.Err? {
        return Err(idx.error);
      }
      idxs := idxs + [idx.value];
    }
    r := Ok(Some(idxs));
  }

  /** Some literal of the expression has no slot. */
  ghost predicate BadLiteral(p: Partition, e: Expr) {
    exists v: SqlVal :: Lit(v) in Atoms(e) && GetIndex(p, v).Err?
  }

  lemma BadLiteralInTuple(p: Partition, e: Expr, i: nat)
    requires e.Cmp? && e.right.ValTuple? && i < |e.right.vals| && e.right.vals[i].Lit?
    requires GetIndex(p, e.right.vals[i].val).Err?
    ensures BadLiteral(p, e)
  {
    AtomsOfMember(e.right.vals, i);
    assert Atoms(e.right) == AtomsOfAll(e.right.vals);
    assert Atoms(e.right.vals[i]) == {e.right.vals[i]};
    assert Lit(e.right.vals[i].val) in Atoms(e);
  }

  /** The condition restricts the key to a list of literals. */
  predicate IsKeyList(e: Expr, table: string, shardkey: string) {
    && e.Cmp? && e.op == In && NameMatch(e.left, table, shardkey) && e.right.ValTuple? && e.right.vals != []
    && forall i | 0 <= i < |e.right.vals| :: e.right.vals[i].Lit?
  }

  /** Only owners of the literals are asked. */
  ghost predicate OnlyOwners(p: Partition, vals: seq<Expr>, segs: seq<Segment>) {
    forall seg | seg in segs :: exists i ::
      0 <= i < |vals| && vals[i].Lit? && HasOwner(p, vals[i].val) && Owner(p, vals[i].val) == seg
  }

  predicate IsKeyEquality(e: Expr, table: string, shardkey: string) {
    e.Cmp? && e.op == Eq && NameMatch(e.left, table, shardkey) && e.right.Lit?
  }

  lemma ListedOwners(p: Partition, vals: seq<Expr>, indexes: seq<int>, segs: seq<Segment>)
    requires |vals| == |indexes| && forall i | 0 <= i < |vals| ::
      vals[i].Lit? && GetIndex(p, vals[i].val) == Ok(indexes[i])
    requires forall seg | seg in segs :: exists i :: 0 <= i < |indexes| && GetSegment(p, indexes[i]) == Ok(seg)
    ensures OnlyOwners(p, vals, segs)
  {
    forall seg | seg in segs
      ensures exists i :: 0 <= i < |vals| && vals[i].Lit? && HasOwner(p, vals[i].val) && Owner(p, vals[i].val) == seg
    {
      var i :| 0 <= i < |indexes| && GetSegment(p, indexes[i]) == Ok(seg);
      assert vals[i].Lit? && GetIndex(p, vals[i].val) == Ok(indexes[i]);
    }
  }

  lemma BadKey(p: Partition, piece: Expr)
    requires Valid(p) && piece.Cmp? && piece.right.Lit? && piece.right in Atoms(piece) && !HasOwner(p, piece.right.val)
    ensures BadLiteral(p, piece)
  {
    if GetIndex(p, piece.right.val).Ok? {
      IndexHasSegment(p, piece.right.val);
    }
    assert Lit(piece.right.val) in Atoms(piece);
  }

  lemma IndexesHaveSegments(p: Partition, vals: seq<Expr>, indexes: seq<int>)
    requires Valid(p) && |vals| == |indexes| && forall i | 0 <= i < |vals| ::
      vals[i].Lit? && GetIndex(p, vals[i].val) == Ok(indexes[i])
    ensures forall i | 0 <= i < |indexes| :: GetSegment(p, indexes[i]).Ok?
  {
    forall i | 0 <= i < |indexes| ensures GetSegment(p, indexes[i]).Ok? {
      IndexHasSegment(p, vals[i].val);
    }
  }

  /** The segments for one condition, or None when it does not restrict the shard key. */
  method LookupPiece(p: Partition, table: string, shardkey: string, piece: Expr)
    returns (r: Result<Option<seq<Segment>>>)
    requires Valid(p)
    ensures r.Ok? && r.value.Some? ==> EachOnce(p, r.value.value) && !Misses(p, table, shardkey, piece, r.value.value)
    ensures IsKeyEquality(piece, table, shardkey) ==>
      if HasOwner(p, piece.right.val) then r == Ok(Some([Owner(p, piece.right.val)])) else r.Err?
    ensures IsKeyList(piece, table, shardkey) && r.Ok? ==>
      r.value.Some? && OnlyOwners(p, piece.right.vals, r.value.value)
    ensures r.Err? ==> BadLiteral(p, piece)
  {
    r := Ok(None);
    if piece.Cmp? && NameMatch(piece.left, table, shardkey) {
      if piece.op == Eq && piece.right.Lit? {
        var val := piece.right.val;
        var segs := Lookup(p, Some(val), Some(val));
        if segs.Err? {
          EqualityIsOver(piece, Atoms(piece));
          BadKey(p, piece);
          return Err(segs.error);
        }
        IndexHasSegment(p, val);
        EqualityRoutes(p, table, shardkey, piece.left, val);
        r := Ok(Some(segs.value));
      } else if piece.op == In && piece.right.ValTuple? {
        var idxs := IndexesOf(p, piece.right.vals);
        if idxs.Err? {
          ghost var i :| 0 <= i < |piece.right.vals| && piece.right.vals[i].Lit? &&
            GetIndex(p, piece.right.vals[i].val).Err?;
          BadLiteralInTuple(p, piece, i);
          return Err(idxs.error);
        }
        if idxs.value.None? {
          AllSegmentsRoute(p, table, shardkey, piece);
          return Ok(Some(p.segments));
        }
        IndexesHaveSegments(p, piece.right.vals, idxs.value.value);
        var segs := GetSegments(p, idxs.value.value);
        if |piece.right.vals| == 0 {
          AllSegmentsRoute(p, table, shardkey, piece);
        } else {
          PickedAll(p, idxs.value.value);
          forall i | 0 <= i < |piece.right.vals|
            ensures HasOwner(p, piece.right.vals[i].val) && Owner(p, piece.right.vals[i].val) in segs.value
          {
            assert GetSegment(p, idxs.value.value[i]).Ok?;
          }
          InRoutes(p, table, shardkey, piece.left, piece.right.vals, segs.value);
          ListedOwners(p, piece.right.vals, idxs.value.value, segs.value);
        }
        r := Ok(Some(segs.value));
      }
    }
  }

  lemma PieceIsOver(where: Expr, filter: Expr, piece: Expr)
    requires Over(filter, Atoms(where)) && Over(piece, Atoms(SkipParenthesis(filter)))
    ensures LitsOver(piece, where)
  {
    SkipKeepsAtoms(filter);
  }

  lemma PieceIsBad(p: Partition, where: Expr, filter: Expr, piece: Expr)
    requires Over(filter, Atoms(where)) && Over(piece, Atoms(SkipParenthesis(filter))) && BadLiteral(p, piece)
    ensures BadLiteral(p, where)
  {
    SkipKeepsAtoms(filter);
  }

  /** Routing of UPDATE and DELETE: the first condition on the shard key decides, otherwise all segments are asked. */
  method LookupFromWhere(p: Partition, table: string, shardkey: string, where: Option<Expr>)
    returns (r: Result<seq<Segment>>)
    requires Valid(p)
    ensures r.Ok? ==> EachOnce(p, r.value)
    ensures r.Ok? && where.Some? ==> !Misses(p, table, shardkey, where.value, r.value)
    ensures where.None? ==> r == Ok(p.segments)
    ensures r.Err? ==> where.Some? && BadLiteral(p, where.value)
    ensures where.Some? && shardkey != "" && IsKeyEquality(where.value, table, shardkey) ==>
      if HasOwner(p, where.value.right.val) then r == Ok([Owner(p, where.value.right.val)]) else r.Err?
  {
    if shardkey != "" && where.Some? {
      var filters := SplitAnd([], where.value);
      SplitAndOver([], where.value, Atoms(where.value));
      for i := 0 to |filters|
        invariant IsKeyEquality(where.value, table, shardkey) ==> i == 0 && filters == [where.value]
      {
        var piece := ConvertOrToIn(SkipParenthesis(filters[i]));
        var segs := LookupPiece(p, table, shardkey, piece);
        if segs.Err? {
          PieceIsBad(p, where.value, filters[i], piece);
          return Err(segs.error);
        }
        if segs.value.Some? {
          PieceFollows(where.value, i, piece);
          PieceIsOver(where.value, filters[i], piece);
          PieceRoutes(p, table, shardkey, where.value, piece, segs.value.value);
          return Ok(segs.value.value);
        }
      }
    }
    if where.Some? {
      AllSegmentsRoute(p, table, shardkey, where.value);
    }
    r := Lookup(p, None, None);
  }

  // ----- SELECT of a single table ---------------------------------------------------------------

  /** Adds the slots of some literals to those recorded. */
  method FetchIndexes(p: Partition, vals: seq<SqlVal>, indexes: seq<int>) returns (r: Option<seq<int>>)
    ensures r.Some? ==> Recorded(p, vals, indexes, r.value)
    ensures r.Some? <==> forall k | 0 <= k < |vals| :: GetIndex(p, vals[k]).Ok?
  {
    var slots := indexes;
    for k := 0 to |vals|
      invariant Recorded(p, vals[..k], indexes, slots)
    {
      var idx := GetIndex(p, vals[k]);
      if idx.Err? {
        return None;
      }
      RecordedMore(p, vals, k, indexes, slots, idx.value);
      slots := slots + [idx.value];
    }
    assert vals[..|vals|] == vals;
    r := Some(slots);
  }

  /** The plan node of one table: the conditions pushed into its query and the slots they pick. */
  class MergeNode {
    const p: Partition
    const table: string
    const shardkey: string
    var wheres: seq<ExprInfo>
    var indexes: seq<int>

    constructor (p: Partition, table: string, shardkey: string)
      ensures this.p == p && this.table == table && this.shardkey == shardkey && wheres == [] && indexes == []
    {
      this.p, this.table, this.shardkey, wheres, indexes := p, table, shardkey, [], [];
    }

    ghost predicate Valid()
      reads this
    {
      && (forall i | 0 <= i < |wheres| :: ValsAreExact(wheres[i]))
      && (indexes != [] ==> exists i :: 0 <= i < |wheres| && Picks(p, table, shardkey, wheres[i], indexes))
      && (forall k | 0 <= k < |indexes| :: IsSlot(p, indexes[k]))
    }

    /** The condition compares the shard key with literals. */
    predicate Decides(filter: ExprInfo)
      requires ValsAreExact(filter)
    {
      shardkey != "" && |filter.vals| > 0 && NameMatch(Col(filter.cols[0]), table, shardkey)
    }

    /** Adds a condition to the query, and the slots of its literals when it restricts the shard key. */
    method PushFilter(filter: ExprInfo) returns (ok: bool)
      requires Valid() && ValsAreExact(filter)
      modifies this
      ensures ok ==> Valid() && wheres == old(wheres) + [filter]
      ensures ok ==> if Decides(filter) then Recorded(p, filter.vals, old(indexes), indexes)
        else indexes == old(indexes)
      ensures !ok <==> Decides(filter) && exists k :: 0 <= k < |filter.vals| && GetIndex(p, filter.vals[k]).Err?
    {
      wheres := wheres + [filter];
      if Decides(filter) {
        var slots := FetchIndexes(p, filter.vals, indexes);
        if slots.None? {
          return false;
        }
        indexes := slots.value;
        RecordedPicks(p, table, shardkey, filter, old(indexes), indexes);
        assert wheres[|wheres| - 1] == filter;
      } else if indexes != [] {
        ghost var i :| 0 <= i < |old(wheres)| && Picks(p, table, shardkey, old(wheres)[i], indexes);
        assert wheres[i] == old(wheres)[i];
      }
      ok := true;
    }

    /** The segments the query is sent to; `where` is the clause whose conditions were pushed. */
    method CalcRoute(ghost where: Expr) returns (r: Result<seq<Segment>>)
      requires Valid() && Router.Valid(p)
      requires forall env :: Eval(where, env) == True ==> EvalInfos(wheres, env) == True
      requires forall i | 0 <= i < |wheres| :: ValsOver(wheres[i], Atoms(where))
      ensures r.Ok? && EachOnce(p, r.value) && !Misses(p, table, shardkey, where, r.value)
      ensures if indexes == [] then r.value == p.segments
              else forall seg :: seg in r.value <==>
                exists k :: 0 <= k < |indexes| && GetSegment(p, indexes[k]) == Ok(seg)
    {
      SlotsHaveSegments(p, indexes);
      r := GetSegments(p, indexes);
      if indexes == [] {
        AllSegmentsRoute(p, table, shardkey, where);
      } else {
        PickedAll(p, indexes);
        ghost var i :| 0 <= i < |wheres| && Picks(p, table, shardkey, wheres[i], indexes);
        PickedRoutes(p, table, shardkey, wheres[i], indexes, r.value);
        InfosFollow(where, wheres, i);
        InfoIsOver(wheres[i], where);
        PieceRoutes(p, table, shardkey, where, wheres[i].expr, r.value);
      }
    }
  }

  /** The slot of some literal. */
  ghost predicate IsSlot(p: Partition, idx: int) {
    exists v: SqlVal :: GetIndex(p, v) == Ok(idx)
  }

  lemma SlotsHaveSegments(p: Partition, indexes: seq<int>)
    requires Router.Valid(p) && forall k | 0 <= k < |indexes| :: IsSlot(p, indexes[k])
    ensures forall k | 0 <= k < |indexes| :: GetSegment(p, indexes[k]).Ok?
  {
    forall k | 0 <= k < |indexes| ensures GetSegment(p, indexes[k]).Ok? {
      assert IsSlot(p, indexes[k]);
      var v: SqlVal :| GetIndex(p, v) == Ok(indexes[k]);
      IndexHasSegment(p, v);
    }
  }

  /** The slots of the literals follow the earlier ones. */
  ghost predicate Recorded(p: Partition, vals: seq<SqlVal>, before: seq<int>, indexes: seq<int>) {
    && |indexes| == |before| + |vals| && indexes[..|before|] == before
    && forall k | 0 <= k < |vals| :: GetIndex(p, vals[k]) == Ok(indexes[|before| + k])
  }

  lemma RecordedMore(p: Partition, vals: seq<SqlVal>, i: nat, before: seq<int>, indexes: seq<int>, idx: int)
    requires i < |vals| && Recorded(p, vals[..i], before, indexes) && GetIndex(p, vals[i]) == Ok(idx)
    ensures Recorded(p, vals[..i + 1], before, indexes + [idx])
  {
    var head, more := vals[..i + 1], indexes + [idx];
    assert more[..|before|] == before;
    forall k | 0 <= k < |head| ensures GetIndex(p, head[k]) == Ok(more[|before| + k]) {
      if k < i {
        assert vals[..i][k] == vals[k] && more[|before| + k] == indexes[|before| + k];
      }
    }
  }

  lemma RecordedPicks(p: Partition, table: string, shardkey: string, info: ExprInfo, before: seq<int>,
                      indexes: seq<int>)
    requires info.vals != [] && ValsAreExact(info) && NameMatch(Col(info.cols[0]), table, shardkey)
    requires Recorded(p, info.vals, before, indexes) && forall k | 0 <= k < |before| :: IsSlot(p, before[k])
    ensures Picks(p, table, shardkey, info, indexes) && forall k | 0 <= k < |indexes| :: IsSlot(p, indexes[k])
  {
    forall i | 0 <= i < |info.vals| ensures Indexed(p, info.vals[i], indexes) {
      assert GetIndex(p, info.vals[i]) == Ok(indexes[|before| + i]);
    }
    forall k | 0 <= k < |indexes| ensures IsSlot(p, indexes[k]) {
      if k < |before| {
        assert indexes[k] == before[k];
      } else {
        assert GetIndex(p, info.vals[k - |before|]) == Ok(indexes[|before| + (k - |before|)]);
      }
    }
  }

  lemma InfoIsOver(info: ExprInfo, where: Expr)
    requires info.vals != [] && ValsAreExact(info) && ValsOver(info, Atoms(where))
    ensures LitsOver(info.expr, where)
  {
    forall col: ColName, v: SqlVal | ColEq(col, v) in Atoms(info.expr) ensures ColEq(col, v) in Atoms(where) {
      if info.expr.op == In {
        ListOffers(info.cols[0], Lits(info.vals), info.vals, ColEq(col, v));
      } else {
        EqualityOffers(info.cols[0], info.vals[0], ColEq(col, v));
      }
    }
  }

  lemma EqualityOffers(col: ColName, val: SqlVal, e: Expr)
    requires e.Cmp? && e in Atoms(Cmp(Eq, Col(col), Lit(val)))
    ensures e == ColEq(col, val)
  {
    assert Atoms(Col(col)) == {Col(col)} && Atoms(Lit(val)) == {Lit(val)};
  }

  lemma ListOffers(col: ColName, es: seq<Expr>, vals: seq<SqlVal>, e: Expr)
    requires |es| == |vals| && forall i | 0 <= i < |es| :: es[i] == Lit(vals[i])
    requires e.Cmp? && e in Atoms(Cmp(In, Col(col), ValTuple(es)))
    ensures exists k :: 0 <= k < |vals| && e == ColEq(col, vals[k])
  {
    TupleHasNoEqualities(es, e);
    ComparisonOffers(In, Col(col), ValTuple(es), e);
    var k := ListedEquality(col, es, e);
    assert e == ColEq(col, vals[k]);
  }

  lemma ComparisonOffers(op: CmpOp, l: Expr, r: Expr, e: Expr)
    requires l.Col? && e.Cmp? && e in Atoms(Cmp(op, l, r)) && e !in Atoms(r)
    ensures e in Equalities(op, l, r)
  {
    assert Atoms(l) == {l};
  }

  lemma ListedEquality(col: ColName, es: seq<Expr>, e: Expr) returns (k: nat)
    requires e in Equalities(In, Col(col), ValTuple(es))
    ensures k < |es| && es[k].Lit? && e == ColEq(col, es[k].val)
  {
    k :| 0 <= k < |es| && es[k].Lit? && e == ColEq(col, es[k].val);
  }

  lemma {:induction false} TupleHasNoEqualities(es: seq<Expr>, e: Expr)
    requires e.Cmp? && forall i | 0 <= i < |es| :: es[i].Lit?
    ensures e !in AtomsOfAll(es) && e !in Atoms(ValTuple(es))
  {
    if es != [] {
      assert Atoms(es[0]) == {es[0]};
      TupleHasNoEqualities(es[1..], e);
    }
  }

  lemma InfosFollow(where: Expr, infos: seq<ExprInfo>, i: nat)
    requires i < |infos| && forall env :: Eval(where, env) == True ==> EvalInfos(infos, env) == True
    ensures forall env :: Eval(where, env) == True ==> Eval(infos[i].expr, env) == True
  {
    forall env | Eval(where, env) == True ensures Eval(infos[i].expr, env) == True {
      InfosAllTrue(infos, env);
    }
  }

  ghost predicate Indexed(p: Partition, v: SqlVal, indexes: seq<int>) {
    exists k :: 0 <= k < |indexes| && GetIndex(p, v) == Ok(indexes[k])
  }

  /** The condition restricts the key to literals whose slots are all recorded. */
  ghost predicate Picks(p: Partition, table: string, shardkey: string, info: ExprInfo, indexes: seq<int>) {
    && info.vals != [] && ValsAreExact(info) && NameMatch(Col(info.cols[0]), table, shardkey)
    && forall i | 0 <= i < |info.vals| :: Indexed(p, info.vals[i], indexes)
  }

  lemma PickedRoutes(p: Partition, table: string, shardkey: string, info: ExprInfo, indexes: seq<int>,
                     segs: seq<Segment>)
    requires Picks(p, table, shardkey, info, indexes)
    requires forall k | 0 <= k < |indexes| :: GetSegment(p, indexes[k]).Ok? && GetSegment(p, indexes[k]).value in segs
    ensures !Misses(p, table, shardkey, info.expr, segs)
  {
    var col := Col(info.cols[0]);
    forall i | 0 <= i < |info.vals| ensures HasOwner(p, info.vals[i]) && Owner(p, info.vals[i]) in segs {
      assert Indexed(p, info.vals[i], indexes);
    }
    if info.expr == Cmp(In, col, ValTuple(Lits(info.vals))) {
      InRoutes(p, table, shardkey, col, Lits(info.vals), segs);
    } else {
      EqualityRoutes(p, table, shardkey, col, info.vals[0]);
    }
  }

  lemma {:induction false} InfosAllTrue(infos: seq<ExprInfo>, env: Env)
    requires EvalInfos(infos, env) == True
    ensures forall i | 0 <= i < |infos| :: Eval(infos[i].expr, env) == True
  {
    if infos != [] {
      InfosAllTrue(infos[..|infos| - 1], env);
    }
  }

  /** The only owner, once. */
  lemma OneSegment(p: Partition, segs: seq<Segment>, seg: Segment)
    requires EachOnce(p, segs) && forall s :: s in segs <==> s == seg
    ensures segs == [seg]
  {
    assert seg in segs;
    var last := |segs| - 1;
    assert segs[0] in segs && segs[last] in segs;
    assert segs[0].id == segs[last].id;
  }

  /** A literal of the clause that was recorded has no slot. */
  lemma FilterIsBad(p: Partition, where: Expr, filter: ExprInfo)
    requires ValsOver(filter, Atoms(where)) && exists k :: 0 <= k < |filter.vals| && GetIndex(p, filter.vals[k]).Err?
    ensures BadLiteral(p, where)
  {
    var k :| 0 <= k < |filter.vals| && GetIndex(p, filter.vals[k]).Err?;
    assert Lit(filter.vals[k]) in Atoms(where);
  }

  /** Pushes the conditions of a clause one after the other. */
  method PushFilters(node: MergeNode, filters: seq<ExprInfo>, ghost where: Expr) returns (ok: bool)
    requires node.Valid() && node.wheres == [] && node.indexes == []
    requires forall i | 0 <= i < |filters| :: ValsAreExact(filters[i]) && ValsOver(filters[i], Atoms(where))
    modifies node
    ensures ok ==> node.Valid() && node.wheres == filters
    ensures !ok ==> BadLiteral(node.p, where)
    ensures ok && |filters| == 1 && node.Decides(filters[0]) ==> Recorded(node.p, filters[0].vals, [], node.indexes)
  {
    for i := 0 to |filters|
      invariant node.Valid() && node.wheres == filters[..i]
      invariant i == 0 ==> node.indexes == []
      invariant i == 1 && node.Decides(filters[0]) ==> Recorded(node.p, filters[0].vals, [], node.indexes)
    {
      ok := node.PushFilter(filters[i]);
      if !ok {
        FilterIsBad(node.p, where, filters[i]);
        return;
      }
      assert filters[..i + 1] == filters[..i] + [filters[i]];
    }
    assert filters[..|filters|] == filters;
    ok := true;
  }

  /** Routing of a SELECT from one table: parse the WHERE clause, push its conditions, pick the segments. */
  method RouteSelect(p: Partition, table: string, shardkey: string, where: Expr) returns (r: Result<seq<Segment>>)
    requires Router.Valid(p)
    ensures r.Ok? ==> EachOnce(p, r.value) && !Misses(p, table, shardkey, where, r.value)
    ensures r.Err? ==> BadLiteral(p, where) || Refusable(where, table)
    ensures r.Ok? && shardkey != "" && IsKeyEquality(where, table, shardkey) ==>
      HasOwner(p, where.right.val) && r.value == [Owner(p, where.right.val)]
  {
    var parsed := ParseWhere(where, {table});
    if parsed.Err? {
      return Err(parsed.error);
    }
    var filters := parsed.value.1;
    var node := new MergeNode(p, table, shardkey);
    var ok := PushFilters(node, filters, where);
    if !ok {
      return Err("fetch.index");
    }
    r := node.CalcRoute(where);
    if shardkey != "" && IsKeyEquality(where, table, shardkey) {
      assert node.Decides(filters[0]) by { assert ColsOf(where)[0] == where.left.col; }
      RoutesToOwner(p, where.right.val, node.indexes, r.value);
    }
  }

  /** Some column of the clause is of another table, or there is a subquery. */
  ghost predicate Refusable(where: Expr, table: string) {
    exists atom :: atom in Atoms(where) && Unsupported(atom, {table})
  }

  lemma RoutesToOwner(p: Partition, val: SqlVal, indexes: seq<int>, segs: seq<Segment>)
    requires Router.Valid(p) && EachOnce(p, segs) && Recorded(p, [val], [], indexes)
    requires forall seg :: seg in segs <==> exists k :: 0 <= k < |indexes| && GetSegment(p, indexes[k]) == Ok(seg)
    ensures HasOwner(p, val) && segs == [Owner(p, val)]
  {
    assert [val][0] == val && GetIndex(p, val) == Ok(indexes[0]);
    IndexHasSegment(p, val);
    var owner := Owner(p, val);
    assert GetSegment(p, indexes[0]) == Ok(owner);
    forall s ensures s in segs <==> s == owner {
    }
    OneSegment(p, segs, owner);
  }
}
