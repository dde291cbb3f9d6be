/** A sharded table under a sequence of statements. */
module ShardedTables {
  import opened Prelude
  import opened Seqs
  import opened SqlExpr
  import opened HashMap
  import opened Router
  import opened Routing
  import opened Storage

  lemma PlacesDiffer(t: Table)
    requires t.Valid()
    ensures Distinct(Places(t.p.segments))
  {
    var places := Places(t.p.segments);
    forall j, k | 0 <= j < k < |places| ensures places[j] != places[k] {
      assert t.p.segments[j].table != t.p.segments[k].table;
    }
  }

  lemma SamePlaceSameSegment(t: Table, a: Segment, b: Segment)
    requires t.Valid() && a in t.p.segments && b in t.p.segments && PlaceOf(a) == PlaceOf(b)
    ensures a == b
  {
  }

  // ----- INSERT ------------------------------------------------------------------------------

  lemma StoredIsPlaced(t: Table, columns: seq<string>, idx: nat, q: Query, values: seq<Expr>)
    requires t.Valid() && KeyColumn(columns, t.shardkey) == Some(idx) && OwnedBy(t, idx, q, values)
    requires values[idx].val in t.keys
    ensures Placed(t, Stored(t, columns, values), (q.backend, q.table))
  {
    var row := Stored(t, columns, values);
    StoredKey(t, columns, values);
    KeyIsRowWithKey(t, row.cols, row.key);
  }

  /** Running one query of an INSERT keeps placement and adds the rows of the query. */
  lemma StoreQuery(t: Table, columns: seq<string>, idx: nat, parts: map<Place, seq<Row>>, q: Query)
    requires t.Valid() && AllPlaced(t, parts) && KeyColumn(columns, t.shardkey) == Some(idx) && GoesTo(t, idx, q)
    requires RowsWritten(t, columns, q.rows)
    ensures var place := (q.backend, q.table);
            var parts' := parts[place := RowsAt(parts, place) + AllStored(t, columns, q.rows)];
            && AllPlaced(t, parts')
            && multiset(Gather(parts', Places(t.p.segments))) ==
               multiset(Gather(parts, Places(t.p.segments))) + multiset(AllStored(t, columns, q.rows))
  {
    var place := (q.backend, q.table);
    var rows := AllStored(t, columns, q.rows);
    var seg :| seg in t.p.segments && PlaceOf(seg) == place;
    var i :| 0 <= i < |t.p.segments| && t.p.segments[i] == seg;
    assert Places(t.p.segments)[i] == place;
    PlacesDiffer(t);
    GatherGrows(parts, Places(t.p.segments), place, rows);
    forall row | row in rows ensures Placed(t, row, place) {
      FlatMapMember((values: seq<Expr>) => [Stored(t, columns, values)], q.rows, row);
      var values :| values in q.rows && row == Stored(t, columns, values);
      StoredIsPlaced(t, columns, idx, q, values);
    }
  }

  lemma StoredAppends(t: Table, columns: seq<string>, queries: seq<Query>, i: nat)
    requires i < |queries|
    ensures var rows := (q: Query) => q.rows;
            AllStored(t, columns, FlatMap(rows, queries[..i + 1])) ==
            AllStored(t, columns, FlatMap(rows, queries[..i])) + AllStored(t, columns, queries[i].rows)
  {
    assert queries[..i + 1][..i] == queries[..i];
    FlatMapAppends((values: seq<Expr>) => [Stored(t, columns, values)], FlatMap((q: Query) => q.rows, queries[..i]),
      queries[i].rows);
  }

  /** The first queries were run on partitions that held `before`. */
  ghost predicate StoredSome(t: Table, columns: seq<string>, before: seq<Row>, parts: map<Place, seq<Row>>,
                             queries: seq<Query>) {
    multiset(Gather(parts, Places(t.p.segments))) ==
    multiset(before) + multiset(AllStored(t, columns, FlatMap((q: Query) => q.rows, queries)))
  }

  function WithQuery(t: Table, columns: seq<string>, parts: map<Place, seq<Row>>, q: Query): map<Place, seq<Row>> {
    var place := (q.backend, q.table);
    parts[place := RowsAt(parts, place) + AllStored(t, columns, q.rows)]
  }

  lemma StoreNext(t: Table, columns: seq<string>, idx: nat, before: seq<Row>, parts: map<Place, seq<Row>>,
                  queries: seq<Query>, i: nat)
    requires t.Valid() && AllPlaced(t, parts) && KeyColumn(columns, t.shardkey) == Some(idx)
    requires i < |queries| && GoesTo(t, idx, queries[i]) && StoredSome(t, columns, before, parts, queries[..i])
    requires RowsWritten(t, columns, queries[i].rows)
    ensures AllPlaced(t, WithQuery(t, columns, parts, queries[i]))
    ensures StoredSome(t, columns, before, WithQuery(t, columns, parts, queries[i]), queries[..i + 1])
  {
    StoreQuery(t, columns, idx, parts, queries[i]);
    StoredAppends(t, columns, queries, i);
  }

  lemma StoredAll(t: Table, columns: seq<string>, idx: nat, before: seq<Row>, parts: map<Place, seq<Row>>,
                  queries: seq<Query>, rows: seq<seq<Expr>>)
    requires StoredSome(t, columns, before, parts, queries[..|queries|]) && Distributes(t, idx, rows, queries)
    ensures multiset(Gather(parts, Places(t.p.segments))) == multiset(before + AllStored(t, columns, rows))
  {
    assert queries[..|queries|] == queries;
    StoredPermutes(t, columns, FlatMap((q: Query) => q.rows, queries), rows);
  }

  /** The rows of the queries are rows of the statement. */
  lemma QueriesWritten(t: Table, columns: seq<string>, idx: nat, rows: seq<seq<Expr>>, queries: seq<Query>, i: nat)
    requires Distributes(t, idx, rows, queries) && RowsWritten(t, columns, rows) && i < |queries|
    ensures RowsWritten(t, columns, queries[i].rows)
  {
    var f := (q: Query) => q.rows;
    forall row | row in queries[i].rows ensures row in rows {
      RowIsGathered(f, queries, i, row);
      assert row in multiset(FlatMap(f, queries));
      assert row in multiset(rows);
    }
  }

  lemma {:induction false} RowIsGathered(f: Query -> seq<seq<Expr>>, queries: seq<Query>, i: nat, row: seq<Expr>)
    requires i < |queries| && row in f(queries[i])
    ensures row in FlatMap(f, queries)
  {
    var n := |queries| - 1;
    if i < n {
      RowIsGathered(f, queries[..n], i, row);
    }
  }

  lemma StoredPermutes(t: Table, columns: seq<string>, a: seq<seq<Expr>>, b: seq<seq<Expr>>)
    requires multiset(a) == multiset(b)
    ensures multiset(AllStored(t, columns, a)) == multiset(AllStored(t, columns, b))
  {
    var f := (values: seq<Expr>) => [Stored(t, columns, values)];
    FlatMapPermutes(f, f, a, b);
  }

  // ----- UPDATE and DELETE -----------------------------------------------------------------------

  /** The statement was run in the partitions of some segments and in no other. */
  ghost predicate Ran(f: Row -> seq<Row>, before: map<Place, seq<Row>>, after: map<Place, seq<Row>>,
                      places: seq<Place>) {
    && after.Keys == before.Keys
    && forall place | place in before :: after[place] == if place in places then FlatMap(f, before[place])
      else before[place]
  }

  /** The statement does not move a row. */
  ghost predicate Stays(t: Table, stmt: Statement) {
    stmt.Update? ==> !AssignsKey(stmt.exprs, t.shardkey)
  }

  lemma EffectIsPlaced(t: Table, stmt: Statement, row: Row, place: Place, row': Row)
    requires t.Valid() && Stays(t, stmt) && Placed(t, row, place) && row' in Effect(t, stmt, row)
    ensures Placed(t, row', place)
  {
    if row' != row {
      KeyIsRowWithKey(t, row.cols, row.key);
      AssignedKeepsKey(t, stmt.exprs, row.cols, row.key.rank);
      KeyIsRowWithKey(t, row'.cols, row.key);
    }
  }

  /** The row after the shard key was set to a literal, as an INSERT with that literal would have it. */
  function WithKey(t: Table, row: Row, v: SqlVal): Row {
    Row(v, Assigned(t, [Assignment(ColName(t.shardkey, ""), Lit(v))], row.cols))
  }

  /** After an update of the shard key the row is where it belongs exactly when its partition owns the new key too. */
  lemma AssigningKeyMisplaces(t: Table, row: Row, place: Place, v: SqlVal)
    requires t.Valid() && Placed(t, row, place) && v in t.keys
    ensures Placed(t, WithKey(t, row, v), place) <==> HasOwner(t.p, v) && PlaceOf(Owner(t.p, v)) == place
  {
    var cols := WithKey(t, row, v).cols;
    assert Assigned(t, [], row.cols) == row.cols;
    assert KeyIs(t, cols, v.rank);
    KeyIsRowWithKey(t, cols, v);
  }

  /** The row that is stored for a key alone. */
  function KeyOnly(t: Table, key: SqlVal): Row {
    Row(key, SetColumn(t, map[], t.shardkey, Value(key.rank)))
  }

  /**
    Why the guard is there: with two keys of different partitions, some row would be misplaced by an update of
    its key.
  */
  lemma GuardIsNeeded(t: Table, a: SqlVal, b: SqlVal)
    requires t.Valid() && a in t.keys && b in t.keys && HasOwner(t.p, a) && HasOwner(t.p, b)
    requires PlaceOf(Owner(t.p, a)) != PlaceOf(Owner(t.p, b))
    ensures var place := PlaceOf(Owner(t.p, a));
      Placed(t, KeyOnly(t, a), place) && !Placed(t, WithKey(t, KeyOnly(t, a), b), place)
  {
    KeyIsRowWithKey(t, KeyOnly(t, a).cols, a);
    AssigningKeyMisplaces(t, KeyOnly(t, a), PlaceOf(Owner(t.p, a)), b);
  }

  lemma RanIsPlaced(t: Table, stmt: Statement, before: map<Place, seq<Row>>, after: map<Place, seq<Row>>,
                    places: seq<Place>)
    requires t.Valid() && Stays(t, stmt) && AllPlaced(t, before)
    requires Ran((row: Row) => Effect(t, stmt, row), before, after, places)
    ensures AllPlaced(t, after)
  {
    var f := (row: Row) => Effect(t, stmt, row);
    forall place, row' | place in after && row' in after[place] ensures Placed(t, row', place) {
      if place in places {
        FlatMapMember(f, before[place], row');
        var row :| row in before[place] && row' in f(row);
        EffectIsPlaced(t, stmt, row, place, row');
      }
    }
  }

  /** Where the statement is not sent it would have changed nothing. */
  lemma NothingSelected(t: Table, stmt: Statement, parts: map<Place, seq<Row>>, segs: seq<Segment>, seg: Segment)
    requires t.Valid() && AllPlaced(t, parts) && !stmt.Insert? && stmt.where.Some?
    requires LitsIn(stmt.where.value, t.name, t.shardkey, t.keys)
    requires !Misses(t.p, t.name, t.shardkey, stmt.where.value, segs)
    requires seg in t.p.segments && seg !in segs
    ensures FlatMap((row: Row) => Effect(t, stmt, row), parts[PlaceOf(seg)]) == parts[PlaceOf(seg)]
  {
    var rows := parts[PlaceOf(seg)];
    forall row | row in rows ensures Effect(t, stmt, row) == [row] {
      assert Placed(t, row, PlaceOf(seg));
      IndexHasSegment(t.p, row.key);
      CongruentAgrees(t.p, t.keys, t.name, t.shardkey, row.key, stmt.where.value);
      SamePlaceSameSegment(t, Owner(t.p, row.key), seg);
    }
    UnchangedRows((row: Row) => Effect(t, stmt, row), rows);
  }

  /** Run where the WHERE clause routes it, the statement acts on the whole table. */
  lemma RanEverywhere(t: Table, stmt: Statement, before: map<Place, seq<Row>>, after: map<Place, seq<Row>>,
                      segs: seq<Segment>)
    requires t.Valid() && AllPlaced(t, before) && !stmt.Insert? && Written(t, stmt)
    requires Ran((row: Row) => Effect(t, stmt, row), before, after, Places(segs))
    requires forall seg | seg in segs :: seg in t.p.segments
    requires if stmt.where.Some? then !Misses(t.p, t.name, t.shardkey, stmt.where.value, segs) else segs == t.p.segments
    ensures var f := (row: Row) => Effect(t, stmt, row);
            Gather(after, Places(t.p.segments)) == FlatMap(f, Gather(before, Places(t.p.segments)))
  {
    var f := (row: Row) => Effect(t, stmt, row);
    var all := Places(t.p.segments);
    forall place | place in all ensures RowsAt(after, place) == FlatMap(f, RowsAt(before, place)) {
      var i :| 0 <= i < |all| && all[i] == place;
      var seg := t.p.segments[i];
      if seg in segs {
        var k :| 0 <= k < |segs| && segs[k] == seg;
        assert Places(segs)[k] == place;
      } else {
        NotAmongPlaces(t, seg, segs);
        NothingSelected(t, stmt, before, segs, seg);
      }
    }
    GatherMaps(f, before, after, all);
  }

  lemma NotAmongPlaces(t: Table, seg: Segment, segs: seq<Segment>)
    requires t.Valid() && seg in t.p.segments && seg !in segs && forall s | s in segs :: s in t.p.segments
    ensures PlaceOf(seg) !in Places(segs)
  {
    if PlaceOf(seg) in Places(segs) {
      var k :| 0 <= k < |segs| && Places(segs)[k] == PlaceOf(seg);
      SamePlaceSameSegment(t, segs[k], seg);
    }
  }

  lemma RunPermutes(t: Table, stmt: Statement, a: seq<Row>, b: seq<Row>)
    requires multiset(a) == multiset(b)
    ensures var f := (row: Row) => Effect(t, stmt, row); multiset(FlatMap(f, a)) == multiset(FlatMap(f, b))
  {
    var f := (row: Row) => Effect(t, stmt, row);
    FlatMapPermutes(f, f, a, b);
  }

  lemma EachPlaceOnce(t: Table, segs: seq<Segment>, i: nat)
    requires t.Valid() && EachOnce(t.p, segs) && i < |segs|
    ensures PlaceOf(segs[i]) !in Places(segs[..i])
    ensures Places(segs[..i + 1]) == Places(segs[..i]) + [PlaceOf(segs[i])]
  {
    if PlaceOf(segs[i]) in Places(segs[..i]) {
      var k :| 0 <= k < i && Places(segs[..i])[k] == PlaceOf(segs[i]);
      SamePlaceSameSegment(t, segs[k], segs[i]);
    }
  }

  /** The statement was run on some segments. */
  ghost predicate RanOn(t: Table, stmt: Statement, before: map<Place, seq<Row>>, after: map<Place, seq<Row>>,
                        segs: seq<Segment>) {
    Ran((row: Row) => Effect(t, stmt, row), before, after, Places(segs))
  }

  function RunAt(t: Table, stmt: Statement, parts: map<Place, seq<Row>>, place: Place): map<Place, seq<Row>> {
    parts[place := FlatMap((row: Row) => Effect(t, stmt, row), RowsAt(parts, place))]
  }

  lemma RanNext(t: Table, stmt: Statement, before: map<Place, seq<Row>>, parts: map<Place, seq<Row>>,
                segs: seq<Segment>, i: nat)
    requires t.Valid() && AllPlaced(t, before) && EachOnce(t.p, segs) && i < |segs|
    requires RanOn(t, stmt, before, parts, segs[..i])
    ensures RanOn(t, stmt, before, RunAt(t, stmt, parts, PlaceOf(segs[i])), segs[..i + 1])
  {
    EachPlaceOnce(t, segs, i);
    assert segs[i] in segs && segs[i] in t.p.segments;
  }

  /** Afterwards the partitions hold what the whole table would. */
  lemma RanAll(t: Table, stmt: Statement, before: map<Place, seq<Row>>, after: map<Place, seq<Row>>, segs: seq<Segment>,
               whole: seq<Row>)
    requires t.Valid() && AllPlaced(t, before) && !stmt.Insert? && Written(t, stmt) && Stays(t, stmt)
    requires EachOnce(t.p, segs) && RanOn(t, stmt, before, after, segs)
    requires if stmt.where.Some? then !Misses(t.p, t.name, t.shardkey, stmt.where.value, segs) else segs == t.p.segments
    requires multiset(Gather(before, Places(t.p.segments))) == multiset(whole)
    ensures AllPlaced(t, after) && multiset(Gather(after, Places(t.p.segments))) == multiset(RunOnOne(t, stmt, whole))
  {
    RanIsPlaced(t, stmt, before, after, Places(segs));
    RanEverywhere(t, stmt, before, after, segs);
    RunPermutes(t, stmt, Gather(before, Places(t.p.segments)), whole);
  }

  lemma InsertTouchesNoRow(t: Table, stmt: Statement, whole: seq<Row>)
    requires stmt.Insert?
    ensures RunOnOne(t, stmt, whole) == whole + AllStored(t, stmt.columns, stmt.rows)
  {
    UnchangedRows((row: Row) => Effect(t, stmt, row), whole);
  }

  // ----- The table ------------------------------------------------------------------------------

  class ShardedTable {
    const t: Table
    var parts: map<Place, seq<Row>>
    /** The rows of one table that is given the same statements. */
    ghost var whole: seq<Row>

    ghost predicate Valid()
      reads this
    {
      && t.Valid() && AllPlaced(t, parts)
      && multiset(Gather(parts, Places(t.p.segments))) == multiset(whole)
    }

    constructor (t: Table)
      requires t.Valid()
      ensures Valid() && this.t == t && whole == []
    {
      this.t := t;
      var empty: map<Place, seq<Row>> := map seg | seg in t.p.segments :: PlaceOf(seg) := [];
      FlatMapNothing((place: Place) => RowsAt(empty, place), Places(t.p.segments));
      parts, whole := empty, [];
    }

    /** Runs the queries of an INSERT plan; a refused statement changes nothing. */
    method Insert(columns: seq<string>, rows: seq<seq<Expr>>) returns (accepted: bool)
      requires Valid() && RowsWritten(t, columns, rows)
      modifies this
      ensures Valid()
      ensures whole == if accepted then RunOnOne(t, Statement.Insert(columns, rows), old(whole)) else old(whole)
      ensures !accepted ==> parts == old(parts)
      ensures accepted <==> Insertable(t, columns, rows)
    {
      var plan := BuildInsert(t, columns, rows);
      if plan.Err? {
        return false;
      }
      var queries := plan.value;
      ghost var idx := KeyColumn(columns, t.shardkey).value;
      for i := 0 to |queries|
        invariant AllPlaced(t, parts) && StoredSome(t, columns, old(whole), parts, queries[..i])
        invariant whole == old(whole)
      {
        QueriesWritten(t, columns, idx, rows, queries, i);
        StoreNext(t, columns, idx, whole, parts, queries, i);
        parts := WithQuery(t, columns, parts, queries[i]);
      }
      StoredAll(t, columns, idx, whole, parts, queries, rows);
      InsertTouchesNoRow(t, Statement.Insert(columns, rows), whole);
      whole := whole + AllStored(t, columns, rows);
      accepted := true;
    }

    /** Runs an UPDATE or DELETE in the partitions it was routed to. */
    method RunOn(stmt: Statement, segs: seq<Segment>)
      requires Valid() && !stmt.Insert? && Written(t, stmt) && Stays(t, stmt) && EachOnce(t.p, segs)
      requires if stmt.where.Some? then !Misses(t.p, t.name, t.shardkey, stmt.where.value, segs)
        else segs == t.p.segments
      modifies this
      ensures Valid() && whole == RunOnOne(t, stmt, old(whole))
    {
      for i := 0 to |segs|
        invariant RanOn(t, stmt, old(parts), parts, segs[..i])
        invariant whole == old(whole)
      {
        RanNext(t, stmt, old(parts), parts, segs, i);
        parts := RunAt(t, stmt, parts, PlaceOf(segs[i]));
      }
      assert segs[..|segs|] == segs;
      RanAll(t, stmt, old(parts), parts, segs, whole);
      whole := RunOnOne(t, stmt, whole);
    }

    method Update(exprs: seq<Assignment>, where: Option<Expr>) returns (accepted: bool)
      requires Valid() && Written(t, Statement.Update(exprs, where))
      modifies this
      ensures Valid()
      ensures whole == if accepted then RunOnOne(t, Statement.Update(exprs, where), old(whole)) else old(whole)
      ensures !accepted ==> parts == old(parts)
      ensures accepted ==> where.Some? && !AssignsKey(exprs, t.shardkey) && !UsesSubquery(exprs, where)
      ensures !accepted ==>
        where.None? || AssignsKey(exprs, t.shardkey) || UsesSubquery(exprs, where) || BadLiteral(t.p, where.value)
    {
      if UsesSubquery(exprs, where) {
        return false;
      }
      if where.None? {
        return false;
      }
      var assigns := IsUpdateShardKey(exprs, t.shardkey);
      if assigns {
        return false;
      }
      var segs := LookupFromWhere(t.p, t.name, t.shardkey, where);
      if segs.Err? {
        return false;
      }
      RunOn(Statement.Update(exprs, where), segs.value);
      accepted := true;
    }

    method Delete(where: Option<Expr>) returns (accepted: bool)
      requires Valid() && Written(t, Statement.Delete(where))
      modifies this
      ensures Valid()
      ensures whole == if accepted then RunOnOne(t, Statement.Delete(where), old(whole)) else old(whole)
      ensures !accepted ==> parts == old(parts)
      ensures accepted ==> !UsesSubquery([], where)
      ensures !accepted ==> where.Some? && (UsesSubquery([], where) || BadLiteral(t.p, where.value))
    {
      if UsesSubquery([], where) {
        return false;
      }
      var segs := LookupFromWhere(t.p, t.name, t.shardkey, where);
      if segs.Err? {
        return false;
      }
      RunOn(Statement.Delete(where), segs.value);
      accepted := true;
    }

    /** Any sequence of statements: the partitions together hold what one table given the accepted ones holds. */
    method Run(stmts: seq<Statement>) returns (accepted: seq<bool>)
      requires Valid() && forall i | 0 <= i < |stmts| :: Written(t, stmts[i])
      modifies this
      ensures Valid() && |accepted| == |stmts|
      ensures multiset(Gather(parts, Places(t.p.segments))) == multiset(Replay(t, stmts, accepted, old(whole)))
    {
      accepted := [];
      for i := 0 to |stmts|
        invariant Valid() && |accepted| == i
        invariant whole == Replay(t, stmts[..i], accepted, old(whole))
      {
        var ok := Execute(stmts[i]);
        ReplayNext(t, stmts, accepted, i, ok, old(whole));
        accepted := accepted + [ok];
      }
      assert stmts[..|stmts|] == stmts;
    }

    method Execute(stmt: Statement) returns (accepted: bool)
      requires Valid() && Written(t, stmt)
      modifies this
      ensures Valid()
      ensures whole == if accepted then RunOnOne(t, stmt, old(whole)) else old(whole)
    {
      match stmt
      case Insert(columns, rows) => accepted := Insert(columns, rows);
      case Update(exprs, where) => accepted := Update(exprs, where);
      case Delete(where) => accepted := Delete(where);
    }
  }

  /** The accepted statements, one after the other, on one table. */
  function Replay(t: Table, stmts: seq<Statement>, accepted: seq<bool>, whole: seq<Row>): seq<Row>
    requires |stmts| == |accepted|
  {
    if stmts == [] then whole
    else
      var n := |stmts| - 1;
      var before := Replay(t, stmts[..n], accepted[..n], whole);
      if accepted[n] then RunOnOne(t, stmts[n], before) else before
  }

  lemma ReplayNext(t: Table, stmts: seq<Statement>, accepted: seq<bool>, i: nat, ok: bool, whole: seq<Row>)
    requires i < |stmts| && |accepted| == i
    ensures var before := Replay(t, stmts[..i], accepted, whole);
      Replay(t, stmts[..i + 1], accepted + [ok], whole) == if ok then RunOnOne(t, stmts[i], before) else before
  {
    assert stmts[..i + 1][..i] == stmts[..i] && (accepted + [ok])[..i] == accepted;
  }
}
