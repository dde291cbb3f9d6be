/** INSERT, UPDATE and DELETE over partitions, and why they act like the same statements on one table. */
module Storage {
  import opened Prelude
  import opened Seqs
  import opened Sorting
  import opened SqlExpr
  import opened Rewriting
  import opened HashMap
  import opened HashUniform
  import opened Router
  import opened Routing

  type Cols = map<(string, string), Scalar>

  /** A stored row, with the literal that was inserted for its shard key. */
  datatype Row = Row(key: SqlVal, cols: Cols)

  /**
    `view` gives the expressions that the planner does not look into their value on a row. `keys` are the
    literals that the statements write for the shard key; equal ones must be hashed alike.
  */
  datatype Table = Table(name: string, shardkey: string, p: Partition, view: Cols -> Env, keys: iset<SqlVal>) {
    ghost predicate Valid() {
      && Router.Valid(p) && Congruent(p, keys) && shardkey != ""
      && (forall j, k | 0 <= j < k < |p.segments| :: p.segments[j].table != p.segments[k].table)
      && (forall cols :: view(cols).cols == cols)
    }
  }

  datatype Assignment = Assignment(col: ColName, value: Expr)

  datatype Statement =
    | Insert(columns: seq<string>, rows: seq<seq<Expr>>)
    | Update(exprs: seq<Assignment>, where: Option<Expr>)
    | Delete(where: Option<Expr>)

  // ----- The statements on one table -----------------------------------------------------

  function SetColumn(t: Table, cols: Cols, name: string, v: Scalar): Cols {
    cols[(Lower(name), "") := v][(Lower(name), t.name) := v]
  }

  function StoredCols(t: Table, columns: seq<string>, values: seq<Expr>): Cols {
    if columns == [] || values == [] then map[]
    else SetColumn(t, StoredCols(t, columns[1..], values[1..]), columns[0], EvalScalar(values[0], t.view(map[])))
  }

  /** The position of the shard key among the columns of an INSERT. */
  function KeyColumn(columns: seq<string>, shardkey: string): Option<nat> {
    if columns == [] then None
    else if Lower(columns[0]) == Lower(shardkey) then Some(0)
    else
      var k := KeyColumn(columns[1..], shardkey);
      if k.Some? then Some(k.value + 1) else None
  }

  function Stored(t: Table, columns: seq<string>, values: seq<Expr>): Row {
    var k := KeyColumn(columns, t.shardkey);
    var key := if k.Some? && k.value < |values| && values[k.value].Lit? then values[k.value].val
      else SqlVal(OtherVal, "", 0.0);
    Row(key, StoredCols(t, columns, values))
  }

  function AllStored(t: Table, columns: seq<string>, rows: seq<seq<Expr>>): seq<Row> {
    FlatMap((values: seq<Expr>) => [Stored(t, columns, values)], rows)
  }

  /** Assignments are made from left to right, each on the row as the earlier ones left it. */
  function Assigned(t: Table, exprs: seq<Assignment>, cols: Cols): Cols {
    if exprs == [] then cols
    else
      var before := Assigned(t, exprs[..|exprs| - 1], cols);
      var last := exprs[|exprs| - 1];
      SetColumn(t, before, last.col.name, EvalScalar(last.value, t.view(before)))
  }

  predicate Selected(t: Table, where: Option<Expr>, row: Row) {
    where.None? || Eval(where.value, t.view(row.cols)) == True
  }

  /** What is left of a row after the statement. */
  function Effect(t: Table, stmt: Statement, row: Row): seq<Row> {
    if stmt.Insert? || !Selected(t, stmt.where, row) then [row]
    else if stmt.Delete? then []
    else [row.(cols := Assigned(t, stmt.exprs, row.cols))]
  }

  function Added(t: Table, stmt: Statement): seq<Row> {
    if stmt.Insert? then AllStored(t, stmt.columns, stmt.rows) else []
  }

  function RunOnOne(t: Table, stmt: Statement, whole: seq<Row>): seq<Row> {
    FlatMap((row: Row) => Effect(t, stmt, row), whole) + Added(t, stmt)
  }

  predicate ExprHasSubquery(e: Expr) {
    exists atom | atom in Atoms(e) :: HasSubquery(atom)
  }

  /** The statement has a subquery in its WHERE clause or in a value that it assigns. */
  predicate UsesSubquery(exprs: seq<Assignment>, where: Option<Expr>) {
    || (where.Some? && ExprHasSubquery(where.value))
    || exists i | 0 <= i < |exprs| :: ExprHasSubquery(exprs[i].value)
  }

  // ----- Placement -------------------------------------------------------------------------

  /** A partition: the backend and the table on it. */
  type Place = (string, string)

  function PlaceOf(seg: Segment): Place { (seg.backend, seg.table) }

  function Places(segs: seq<Segment>): seq<Place> {
    seq(|segs|, i requires 0 <= i < |segs| => PlaceOf(segs[i]))
  }

  /** The row is in the partition that owns its key, and its key column has the value of the key. */
  ghost predicate Placed(t: Table, row: Row, place: Place) {
    && row.key in t.keys && HasOwner(t.p, row.key) && PlaceOf(Owner(t.p, row.key)) == place
    && RowWithKey(t.view(row.cols), t.name, t.shardkey, row.key)
  }

  ghost predicate AllPlaced(t: Table, parts: map<Place, seq<Row>>) {
    && (forall seg | seg in t.p.segments :: PlaceOf(seg) in parts)
    && (forall place, row | place in parts && row in parts[place] :: Placed(t, row, place))
  }

  function RowsAt(parts: map<Place, seq<Row>>, place: Place): seq<Row> {
    if place in parts then parts[place] else []
  }

  /** All rows of some partitions. */
  function Gather(parts: map<Place, seq<Row>>, places: seq<Place>): seq<Row> {
    FlatMap((place: Place) => RowsAt(parts, place), places)
  }

  lemma GatherGrows(parts: map<Place, seq<Row>>, places: seq<Place>, place: Place, rows: seq<Row>)
    requires Distinct(places) && place in places
    ensures multiset(Gather(parts[place := RowsAt(parts, place) + rows], places)) == multiset(Gather(parts,
      places)) + multiset(rows)
  {
    var parts' := parts[place := RowsAt(parts, place) + rows];
    FlatMapGrows((k: Place) => RowsAt(parts, k), (k: Place) => RowsAt(parts', k), places, place, rows);
  }

  lemma {:induction false} UnchangedRows(f: Row -> seq<Row>, rows: seq<Row>)
    requires forall row | row in rows :: f(row) == [row]
    ensures FlatMap(f, rows) == rows
  {
    if rows != [] {
      UnchangedRows(f, rows[..|rows| - 1]);
    }
  }

  /** A change made row by row in every partition is that change made in the whole table. */
  lemma {:induction false} GatherMaps(f: Row -> seq<Row>, parts: map<Place, seq<Row>>, parts': map<Place, seq<Row>>,
                                      places: seq<Place>)
    requires forall place | place in places :: RowsAt(parts', place) == FlatMap(f, RowsAt(parts, place))
    ensures Gather(parts', places) == FlatMap(f, Gather(parts, places))
  {
    if places != [] {
      var n := |places| - 1;
      GatherMaps(f, parts, parts', places[..n]);
      FlatMapAppends(f, Gather(parts, places[..n]), RowsAt(parts, places[n]));
    }
  }

  // ----- What keeps a row in its partition ----------------------------------------------

  predicate KeyIs(t: Table, cols: Cols, rank: real) {
    var name := Lower(t.shardkey);
    (name, "") in cols && (name, t.name) in cols && cols[(name, "")] == Value(rank) == cols[(name, t.name)]
  }

  lemma KeyIsRowWithKey(t: Table, cols: Cols, key: SqlVal)
    requires t.Valid()
    ensures RowWithKey(t.view(cols), t.name, t.shardkey, key) <==> KeyIs(t, cols, key.rank)
  {
    var env := t.view(cols);
    assert env.cols == cols;
    if RowWithKey(env, t.name, t.shardkey, key) {
      assert NameMatch(Col(ColName(t.shardkey, "")), t.name, t.shardkey);
      assert NameMatch(Col(ColName(t.shardkey, t.name)), t.name, t.shardkey);
      assert ColValue(ColName(t.shardkey, ""), env) == Value(key.rank);
      assert ColValue(ColName(t.shardkey, t.name), env) == Value(key.rank);
    }
  }

  /** The guard of UPDATE: some assignment is to the shard key. */
  method IsUpdateShardKey(exprs: seq<Assignment>, shardkey: string) returns (found: bool)
    ensures found <==> shardkey != "" && AssignsKey(exprs, shardkey)
  {
    if shardkey != "" {
      for i := 0 to |exprs|
        invariant forall k | 0 <= k < i :: Lower(exprs[k].col.name) != Lower(shardkey)
      {
        if Lower(exprs[i].col.name) == Lower(shardkey) {
          return true;
        }
      }
    }
    return false;
  }

  predicate AssignsKey(exprs: seq<Assignment>, shardkey: string) {
    exists i | 0 <= i < |exprs| :: Lower(exprs[i].col.name) == Lower(shardkey)
  }

  lemma {:induction false} AssignedKeepsKey(t: Table, exprs: seq<Assignment>, cols: Cols, rank: real)
    requires !AssignsKey(exprs, t.shardkey) && KeyIs(t, cols, rank)
    ensures KeyIs(t, Assigned(t, exprs, cols), rank)
  {
    if exprs != [] {
      var n := |exprs| - 1;
      assert !AssignsKey(exprs[..n], t.shardkey) by {
        forall i | 0 <= i < n ensures Lower(exprs[..n][i].col.name) != Lower(t.shardkey) {
          assert exprs[..n][i] == exprs[i];
        }
      }
      AssignedKeepsKey(t, exprs[..n], cols, rank);
      assert Lower(exprs[n].col.name) != Lower(t.shardkey);
    }
  }

  lemma {:induction false} StoredKey(t: Table, columns: seq<string>, values: seq<Expr>)
    requires KeyColumn(columns, t.shardkey).Some? && KeyColumn(columns, t.shardkey).value < |values|
    requires values[KeyColumn(columns, t.shardkey).value].Lit?
    ensures KeyIs(t, StoredCols(t, columns, values), values[KeyColumn(columns, t.shardkey).value].val.rank)
  {
    if Lower(columns[0]) != Lower(t.shardkey) {
      StoredKey(t, columns[1..], values[1..]);
    }
  }

  // ----- Grouping the rows of an INSERT ------------------------------------------------------

  /** The key of the row is a literal that some segment owns. */
  predicate Placeable(t: Table, idx: nat, row: seq<Expr>) {
    idx < |row| && row[idx].Lit? && HasOwner(t.p, row[idx].val)
  }

  /** The shard key is among the columns, and every row has an owner. */
  predicate Insertable(t: Table, columns: seq<string>, rows: seq<seq<Expr>>) {
    KeyColumn(columns, t.shardkey).Some? && forall i | 0 <= i < |rows| ::
      Placeable(t, KeyColumn(columns, t.shardkey).value, rows[i])
  }

  /** The statement inserts and compares the shard key with literals of the table only. */
  ghost predicate Written(t: Table, stmt: Statement) {
    match stmt
    case Insert(columns, rows) => RowsWritten(t, columns, rows)
    case Update(_, where) => where.Some? ==> LitsIn(where.value, t.name, t.shardkey, t.keys)
    case Delete(where) => where.Some? ==> LitsIn(where.value, t.name, t.shardkey, t.keys)
  }

  ghost predicate RowsWritten(t: Table, columns: seq<string>, rows: seq<seq<Expr>>) {
    var k := KeyColumn(columns, t.shardkey);
    forall row: seq<Expr> | row in rows && k.Some? && k.value < |row| && row[k.value].Lit? :: row[k.value].val in t.keys
  }

  datatype Query = Query(backend: string, table: string, rows: seq<seq<Expr>>)

  ghost predicate OwnedBy(t: Table, idx: nat, q: Query, row: seq<Expr>) {
    Placeable(t, idx, row) && PlaceOf(Owner(t.p, row[idx].val)) == (q.backend, q.table)
  }

  ghost predicate GoesTo(t: Table, idx: nat, q: Query) {
    && (exists seg :: seg in t.p.segments && PlaceOf(seg) == (q.backend, q.table))
    && forall row | row in q.rows :: OwnedBy(t, idx, q, row)
  }

  /** The queries of an INSERT: each row once, in the query for the partition that owns its key. */
  ghost predicate Distributes(t: Table, idx: nat, rows: seq<seq<Expr>>, queries: seq<Query>) {
    && multiset(FlatMap((q: Query) => q.rows, queries)) == multiset(rows)
    && (forall q | q in queries :: GoesTo(t, idx, q))
    && (forall j, k | 0 <= j < k < |queries| ::
      queries[j].table != queries[k].table && StringLe(queries[j].table, queries[k].table))
  }

  function RowsOf(groups: map<string, Query>, table: string): seq<seq<Expr>> {
    if table in groups then groups[table].rows else []
  }

  ghost predicate Named(groups: map<string, Query>, tables: seq<string>) {
    Distinct(tables) && forall table :: table in groups <==> table in tables
  }

  ghost predicate Belong(t: Table, idx: nat, groups: map<string, Query>) {
    forall table | table in groups :: groups[table].table == table && GoesTo(t, idx, groups[table])
  }

  ghost predicate Counted(groups: map<string, Query>, tables: seq<string>, rows: seq<seq<Expr>>) {
    multiset(FlatMap((table: string) => RowsOf(groups, table), tables)) == multiset(rows)
  }

  /** The group with one more row. */
  function WithRow(groups: map<string, Query>, seg: Segment, row: seq<Expr>): map<string, Query> {
    var q := if seg.table in groups then groups[seg.table] else Query(seg.backend, seg.table, []);
    groups[seg.table := q.(rows := q.rows + [row])]
  }

  function WithTable(tables: seq<string>, groups: map<string, Query>, table: string): seq<string> {
    if table in groups then tables else tables + [table]
  }

  lemma GroupCounts(groups: map<string, Query>, tables: seq<string>, rows: seq<seq<Expr>>, i: nat, seg: Segment)
    requires i < |rows| && Named(groups, tables) && Counted(groups, tables, rows[..i])
    ensures Named(WithRow(groups, seg, rows[i]), WithTable(tables, groups, seg.table))
    ensures Counted(WithRow(groups, seg, rows[i]), WithTable(tables, groups, seg.table), rows[..i + 1])
  {
    var row := rows[i];
    assert rows[..i + 1] == rows[..i] + [row];
    var groups' := WithRow(groups, seg, row);
    var tables' := WithTable(tables, groups, seg.table);
    var f := (table: string) => RowsOf(groups, table);
    if seg.table !in groups {
      assert tables'[..|tables|] == tables;
      assert FlatMap(f, tables') == FlatMap(f, tables) + [];
    }
    FlatMapGrows(f, (table: string) => RowsOf(groups', table), tables', seg.table, [row]);
  }

  lemma GroupBelongs(t: Table, idx: nat, groups: map<string, Query>, seg: Segment, row: seq<Expr>)
    requires t.Valid() && Placeable(t, idx, row) && seg == Owner(t.p, row[idx].val) && seg in t.p.segments
    requires Belong(t, idx, groups)
    ensures Belong(t, idx, WithRow(groups, seg, row))
  {
    var q := WithRow(groups, seg, row)[seg.table];
    if seg.table in groups {
      var other :| other in t.p.segments && PlaceOf(other) == (groups[seg.table].backend, seg.table);
      assert other == seg;
      forall r | r in q.rows ensures OwnedBy(t, idx, q, r) {
        assert r == row || OwnedBy(t, idx, groups[seg.table], r);
      }
    }
    assert PlaceOf(seg) == (q.backend, q.table);
  }

  method FindKeyColumn(columns: seq<string>, shardkey: string) returns (idx: int)
    ensures idx == (var k := KeyColumn(columns, shardkey); if k.Some? then k.value else -1)
  {
    for i := 0 to |columns|
      invariant KeyColumn(columns, shardkey) ==
                (var k := KeyColumn(columns[i..], shardkey); if k.Some? then Some(k.value + i) else None)
    {
      if Lower(columns[i]) == Lower(shardkey) {
        return i;
      }
    }
    return -1;
  }

  /** The segment of one row of an INSERT. */
  method FindSegment(t: Table, idx: nat, row: seq<Expr>) returns (r: Result<Segment>)
    requires t.Valid()
    ensures r.Ok? <==> Placeable(t, idx, row)
    ensures r.Ok? ==> r.value == Owner(t.p, row[idx].val) && r.value in t.p.segments
  {
    if idx >= |row| {
      return Err("unsupported: shardkey.out.of.index");
    }
    if !row[idx].Lit? {
      return Err("unsupported: shardkey.type.canot.be");
    }
    var segments := Lookup(t.p, Some(row[idx].val), Some(row[idx].val));
    if segments.Err? {
      return Err(segments.error);
    }
    IndexHasSegment(t.p, row[idx].val);
    r := Ok(segments.value[0]);
  }

  /** The rows by partition table; `tables` lists the keys of the map in any order. */
  method GroupRows(t: Table, idx: nat, rows: seq<seq<Expr>>)
    returns (failed: bool, groups: map<string, Query>, tables: seq<string>)
    requires t.Valid()
    ensures !failed <==> forall i | 0 <= i < |rows| :: Placeable(t, idx, rows[i])
    ensures !failed ==> Named(groups, tables) && Belong(t, idx, groups) && Counted(groups, tables, rows)
  {
    groups, tables := map[], [];
    for i := 0 to |rows|
      invariant Named(groups, tables) && Belong(t, idx, groups) && Counted(groups, tables, rows[..i])
    {
      var seg := FindSegment(t, idx, rows[i]);
      if seg.Err? {
        failed := true;
        return;
      }
      GroupCounts(groups, tables, rows, i, seg.value);
      GroupBelongs(t, idx, groups, seg.value, rows[i]);
      tables := WithTable(tables, groups, seg.value.table);
      groups := WithRow(groups, seg.value, rows[i]);
    }
    assert rows[..|rows|] == rows;
    GroupedIsPlaceable(t, idx, groups, tables, rows);
    failed := false;
  }

  lemma GroupedIsPlaceable(t: Table, idx: nat, groups: map<string, Query>, tables: seq<string>, rows: seq<seq<Expr>>)
    requires Named(groups, tables) && Belong(t, idx, groups) && Counted(groups, tables, rows)
    ensures forall i | 0 <= i < |rows| :: Placeable(t, idx, rows[i])
  {
    var f := (table: string) => RowsOf(groups, table);
    forall i | 0 <= i < |rows| ensures Placeable(t, idx, rows[i]) {
      assert rows[i] in multiset(rows);
      FlatMapMember(f, tables, rows[i]);
      var table :| table in tables && rows[i] in f(table);
      assert OwnedBy(t, idx, groups[table], rows[i]);
    }
  }

  /** The plan of an INSERT: rows grouped by partition, the queries sorted by partition table. */
  method BuildInsert(t: Table, columns: seq<string>, rows: seq<seq<Expr>>) returns (r: Result<seq<Query>>)
    requires t.Valid()
    ensures r.Ok? <==> Insertable(t, columns, rows)
    ensures r.Ok? ==> Distributes(t, KeyColumn(columns, t.shardkey).value, rows, r.value)
  {
    var idx := FindKeyColumn(columns, t.shardkey);
    if idx == -1 {
      return Err("unsupported: shardkey.column.missing");
    }
    var failed, groups, tables := GroupRows(t, idx, rows);
    if failed {
      return Err("unsupported: shardkey");
    }
    var queries := SortGroups(t, idx, groups, tables, rows);
    r := Ok(queries);
  }

  method SortStrings(s: seq<string>) returns (sorted: seq<string>)
    ensures SortOf(sorted, s, StringLe)
  {
    StringLeIsTotalPreorder();
    sorted := Sort(s, StringLe);
  }

  /** The queries of the groups, in increasing order of the partition table. */
  method SortGroups(t: Table, idx: nat, groups: map<string, Query>, tables: seq<string>, ghost rows: seq<seq<Expr>>)
    returns (queries: seq<Query>)
    requires Named(groups, tables) && Belong(t, idx, groups) && Counted(groups, tables, rows)
    ensures Distributes(t, idx, rows, queries)
  {
    var partTables := SortStrings(tables);
    SortedTables(groups, tables, partTables);
    queries := QueriesFor(groups, partTables);
    SortedDistributes(t, idx, groups, tables, rows, partTables, queries);
  }

  method QueriesFor(groups: map<string, Query>, tables: seq<string>) returns (queries: seq<Query>)
    requires forall table | table in tables :: table in groups
    ensures |queries| == |tables| && forall k | 0 <= k < |tables| ::
      tables[k] in groups && queries[k] == groups[tables[k]]
  {
    queries := [];
    for i := 0 to |tables|
      invariant |queries| == i && forall k | 0 <= k < i :: queries[k] == groups[tables[k]]
    {
      queries := queries + [groups[tables[i]]];
    }
  }

  lemma SortedDistributes(t: Table, idx: nat, groups: map<string, Query>, tables: seq<string>, rows: seq<seq<Expr>>,
                          partTables: seq<string>, queries: seq<Query>)
    requires Named(groups, tables) && Belong(t, idx, groups) && Counted(groups, tables, rows)
    requires SortOf(partTables, tables, StringLe) && |queries| == |partTables|
    requires forall k | 0 <= k < |partTables| :: partTables[k] in groups && queries[k] == groups[partTables[k]]
    ensures Distributes(t, idx, rows, queries)
  {
    SortedTables(groups, tables, partTables);
    QueriesOfGroups(groups, partTables, queries);
  }

  lemma {:induction false} QueriesOfGroups(groups: map<string, Query>, tables: seq<string>, queries: seq<Query>)
    requires |queries| == |tables| && forall k | 0 <= k < |tables| ::
      tables[k] in groups && queries[k] == groups[tables[k]]
    ensures FlatMap((q: Query) => q.rows, queries) == FlatMap((table: string) => RowsOf(groups, table), tables)
  {
    if tables != [] {
      QueriesOfGroups(groups, tables[..|tables| - 1], queries[..|tables| - 1]);
    }
  }

  lemma SortedTables(groups: map<string, Query>, tables: seq<string>, partTables: seq<string>)
    requires Distinct(tables) && multiset(tables) == multiset(partTables)
    requires forall table | table in tables :: table in groups
    ensures Distinct(partTables) && forall table | table in partTables :: table in groups
    ensures multiset(FlatMap((table: string) => RowsOf(groups, table), partTables)) ==
            multiset(FlatMap((table: string) => RowsOf(groups, table), tables))
  {
    var f := (table: string) => RowsOf(groups, table);
    FlatMapPermutes(f, f, tables, partTables);
    forall table | table in partTables ensures table in groups {
      assert table in multiset(partTables);
    }
    PermutationIsDistinct(tables, partTables);
  }
}
