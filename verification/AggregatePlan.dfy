/** The aggregate plan: avg is sent to the shards as sum and count, and every index must follow. */
module AggregatePlan {
  import opened Prelude
  import opened SqlExpr

  datatype AggrType = Sum | Count | Min | Max | Avg

  /** A column of a select list: a plain column, or an aggregate of a column (count(*) has none). */
  datatype Item = Plain(field: string, col: nat) | Aggr(fn: AggrType, arg: Option<nat>)

  /** `fn` is the name of the aggregate function, empty for a plain column. */
  datatype SelectTuple = SelectTuple(field: string, fn: string, col: nat, star: bool)

  datatype Aggregator = Aggregator(index: nat, typ: AggrType)

  function TypeOf(fn: string): Option<AggrType> {
    var name := Lower(fn);
    if name == "sum" then Some(Sum) else if name == "count" then Some(Count) else if name == "min" then Some(Min)
    else if name == "max" then Some(Max) else if name == "avg" then Some(Avg) else None
  }

  function ItemOf(t: SelectTuple): Option<Item> {
    if t.fn == "" then
      if t.field == "*" then None else Some(Plain(t.field, t.col))
    else
      var typ := TypeOf(t.fn);
      if typ.None? then None else Some(Aggr(typ.value, if t.star then None else Some(t.col)))
  }

  // ----- The select list that the shards get -------------------------------------------------

  predicate IsAvg(item: Item) { item.Aggr? && item.fn == Avg }

  function Parts(item: Item): seq<Item> {
    if IsAvg(item) then [Aggr(Sum, item.arg), Aggr(Count, item.arg)] else [item]
  }

  /** The columns of the first j items. */
  function ExpandTo(items: seq<Item>, j: nat): seq<Item>
    requires j <= |items|
  {
    if j == 0 then [] else ExpandTo(items, j - 1) + Parts(items[j - 1])
  }

  function Expand(items: seq<Item>): seq<Item> { ExpandTo(items, |items|) }

  /** The column at which item j starts. */
  function Pos(items: seq<Item>, j: nat): nat
    requires j <= |items|
  {
    |ExpandTo(items, j)|
  }

  function AggregatorsAt(item: Item, k: nat): seq<Aggregator> {
    if item.Plain? then []
    else if item.fn == Avg then [Aggregator(k, Avg), Aggregator(k, Sum), Aggregator(k + 1, Count)]
    else [Aggregator(k, item.fn)]
  }

  /** The aggregators of the first j items. */
  function AggregatorsTo(items: seq<Item>, j: nat): seq<Aggregator>
    requires j <= |items|
  {
    if j == 0 then [] else AggregatorsTo(items, j - 1) + AggregatorsAt(items[j - 1], Pos(items, j - 1))
  }

  function Aggregators(items: seq<Item>): seq<Aggregator> { AggregatorsTo(items, |items|) }

  /** The place of the aggregators of item j. */
  function Off(items: seq<Item>, j: nat): nat
    requires j <= |items|
  {
    |AggregatorsTo(items, j)|
  }

  /** Column k of item j stands k places after its position, whatever follows. */
  lemma {:induction false} ExpandedAt(items: seq<Item>, j: nat, k: nat, n: nat)
    requires j < n <= |items| && k < |Parts(items[j])|
    ensures Pos(items, j) + k < |ExpandTo(items, n)| && ExpandTo(items, n)[Pos(items, j) + k] == Parts(items[j])[k]
  {
    if j < n - 1 {
      ExpandedAt(items, j, k, n - 1);
    }
  }

  /** The aggregators of item j name its own columns. */
  lemma {:induction false} AggregatorsOfItem(items: seq<Item>, j: nat, k: nat, n: nat)
    requires j < n <= |items| && k < |AggregatorsAt(items[j], Pos(items, j))|
    ensures Off(items, j) + k < |AggregatorsTo(items, n)|
    ensures AggregatorsTo(items, n)[Off(items, j) + k] == AggregatorsAt(items[j], Pos(items, j))[k]
  {
    if j < n - 1 {
      AggregatorsOfItem(items, j, k, n - 1);
    }
  }

  /** Whatever averages stand before an item, its aggregators point at its own columns of the rewritten list. */
  lemma OwnColumns(items: seq<Item>, t: nat)
    requires t < |items|
    ensures var p, i := Pos(items, t), Off(items, t);
      if items[t].Plain? then p < |Expand(items)| && Expand(items)[p] == items[t]
      else if items[t].fn == Avg then
        && p + 1 < |Expand(items)| && Expand(items)[p] == Aggr(Sum, items[t].arg) &&
          Expand(items)[p + 1] == Aggr(Count, items[t].arg)
        && i + 2 < |Aggregators(items)| && Aggregators(items)[i] == Aggregator(p, Avg)
        && Aggregators(items)[i + 1] == Aggregator(p, Sum) && Aggregators(items)[i + 2] == Aggregator(p + 1, Count)
      else
        && p < |Expand(items)| && Expand(items)[p] == items[t]
        && i < |Aggregators(items)| && Aggregators(items)[i] == Aggregator(p, items[t].fn)
  {
    ExpandedAt(items, t, 0, |items|);
    if items[t].Aggr? {
      AggregatorsOfItem(items, t, 0, |items|);
      if items[t].fn == Avg {
        ExpandedAt(items, t, 1, |items|);
        AggregatorsOfItem(items, t, 1, |items|);
        AggregatorsOfItem(items, t, 2, |items|);
      }
    }
  }

  lemma {:induction false} ExpandedHasNoAvg(items: seq<Item>, n: nat)
    requires n <= |items|
    ensures forall c | 0 <= c < |ExpandTo(items, n)| :: !IsAvg(ExpandTo(items, n)[c])
  {
    if n > 0 {
      ExpandedHasNoAvg(items, n - 1);
    }
  }

  lemma {:induction false} PosGrows(items: seq<Item>, i: nat, j: nat)
    requires i < j <= |items|
    ensures Pos(items, i) + |Parts(items[i])| <= Pos(items, j)
  {
    if i < j - 1 {
      PosGrows(items, i, j - 1);
    }
  }

  // ----- Building the plan ---------------------------------------------------------------------

  datatype Plan = Plan(rewritten: seq<Item>, normalAggrs: seq<Aggregator>, groupIdxs: seq<nat>)

  /** A plain column and its position. */
  datatype PlainColumn = PlainColumn(field: string, index: nat)

  predicate IsPlain(items: seq<Item>, j: nat, p: PlainColumn)
    requires j < |items|
  {
    items[j].Plain? && items[j].field == p.field && Pos(items, j) == p.index
  }

  /** The plain columns among the first n items. */
  ghost predicate PlainsOf(items: seq<Item>, n: nat, plains: seq<PlainColumn>)
    requires n <= |items|
  {
    && (forall p | p in plains :: exists j :: 0 <= j < n && IsPlain(items, j, p))
    && (forall j | 0 <= j < n && items[j].Plain? :: exists p :: p in plains && IsPlain(items, j, p))
  }

  /** Makes room for a second column at k + 1 and fills in the two columns of avg. */
  method InsertAvg(rewritten: seq<Item>, k: nat, sum: Item, count: Item) returns (r: seq<Item>)
    requires k < |rewritten|
    ensures r == rewritten[..k] + [sum, count] + rewritten[k + 1..]
  {
    r := rewritten + [sum];
    r := r[..k + 2] + r[k + 1..|r| - 1];
    r := r[k := sum][k + 1 := count];
  }

  /** The expanded first items, followed by the others as they were. */
  function Halfway(items: seq<Item>, i: nat): seq<Item>
    requires i <= |items|
  {
    ExpandTo(items, i) + items[i..]
  }

  lemma HalfwayNext(items: seq<Item>, i: nat)
    requires i < |items|
    ensures Pos(items, i) < |Halfway(items, i)|
    ensures Halfway(items, i + 1) == Halfway(items, i)[..Pos(items, i)] + Parts(items[i]) + Halfway(items,
      i)[Pos(items, i) + 1..]
    ensures !IsAvg(items[i]) ==> Halfway(items, i + 1) == Halfway(items, i)
  {
    assert items[i..] == [items[i]] + items[i + 1..];
    Splice(ExpandTo(items, i), items[i], Parts(items[i]), items[i + 1..]);
  }

  lemma Splice(a: seq<Item>, x: Item, parts: seq<Item>, rest: seq<Item>)
    ensures var s := a + ([x] + rest);
      && |a| < |s| && (a + parts) + rest == s[..|a|] + parts + s[|a| + 1..]
      && (parts == [x] ==> (a + parts) + rest == s)
  {
  }

  lemma PlainsNext(items: seq<Item>, i: nat, plains: seq<PlainColumn>)
    requires i < |items| && PlainsOf(items, i, plains)
    ensures PlainsOf(items, i + 1, if items[i].Plain? then plains + [PlainColumn(items[i].field, Pos(items, i))]
      else plains)
  {
    if items[i].Plain? {
      var p := PlainColumn(items[i].field, Pos(items, i));
      var plains' := plains + [p];
      assert IsPlain(items, i, p) && p in plains';
      forall j | 0 <= j < i && items[j].Plain? ensures exists q :: q in plains' && IsPlain(items, j, q) {
        var q :| q in plains && IsPlain(items, j, q);
        assert q in plains';
      }
    }
  }

  /** Where the analysis stands before item i. */
  ghost predicate Analyzed(items: seq<Item>, i: nat, rewritten: seq<Item>, aggrs: seq<Aggregator>,
                           plains: seq<PlainColumn>, k: nat) {
    && i <= |items| && k == Pos(items, i) && rewritten == Halfway(items, i)
    && aggrs == AggregatorsTo(items, i) && PlainsOf(items, i, plains)
  }

  lemma AnalyzedPlain(items: seq<Item>, i: nat, rewritten: seq<Item>, aggrs: seq<Aggregator>, plains: seq<PlainColumn>,
                      k: nat)
    requires Analyzed(items, i, rewritten, aggrs, plains, k) && i < |items| && items[i].Plain?
    ensures Analyzed(items, i + 1, rewritten, aggrs, plains + [PlainColumn(items[i].field, k)], k + 1)
  {
    HalfwayNext(items, i);
    PlainsNext(items, i, plains);
  }

  lemma AnalyzedAggr(items: seq<Item>, i: nat, rewritten: seq<Item>, aggrs: seq<Aggregator>, plains: seq<PlainColumn>,
                     k: nat)
    requires Analyzed(items, i, rewritten, aggrs, plains, k) && i < |items| && items[i].Aggr? && items[i].fn != Avg
    ensures Analyzed(items, i + 1, rewritten, aggrs + AggregatorsAt(items[i], k), plains, k + 1)
  {
    HalfwayNext(items, i);
    PlainsNext(items, i, plains);
  }

  lemma AnalyzedAvg(items: seq<Item>, i: nat, rewritten: seq<Item>, aggrs: seq<Aggregator>, plains: seq<PlainColumn>,
                    k: nat)
    requires Analyzed(items, i, rewritten, aggrs, plains, k) && i < |items| && IsAvg(items[i])
    ensures k < |rewritten|
    ensures Analyzed(items, i + 1, rewritten[..k] + Parts(items[i]) + rewritten[k + 1..],
      aggrs + AggregatorsAt(items[i], k), plains, k + 2)
  {
    HalfwayNext(items, i);
    PlainsNext(items, i, plains);
  }

  /** What the analysis has found so far. */
  datatype Analysis = Analysis(rewritten: seq<Item>, aggrs: seq<Aggregator>, plains: seq<PlainColumn>, k: nat)

  ghost predicate Stands(items: seq<Item>, i: nat, a: Analysis) {
    Analyzed(items, i, a.rewritten, a.aggrs, a.plains, a.k)
  }

  /** Deals with one item of the select list. */
  method AnalyzeItem(items: seq<Item>, i: nat, a: Analysis) returns (a': Analysis)
    requires i < |items| && Stands(items, i, a)
    ensures Stands(items, i + 1, a')
  {
    if items[i].Plain? {
      AnalyzedPlain(items, i, a.rewritten, a.aggrs, a.plains, a.k);
      return a.(plains := a.plains + [PlainColumn(items[i].field, a.k)], k := a.k + 1);
    }
    if items[i].fn != Avg {
      AnalyzedAggr(items, i, a.rewritten, a.aggrs, a.plains, a.k);
      return a.(aggrs := a.aggrs + AggregatorsAt(items[i], a.k), k := a.k + 1);
    }
    AnalyzedAvg(items, i, a.rewritten, a.aggrs, a.plains, a.k);
    var rewritten := InsertAvg(a.rewritten, a.k, Aggr(Sum, items[i].arg), Aggr(Count, items[i].arg));
    return Analysis(rewritten, a.aggrs + AggregatorsAt(items[i], a.k), a.plains, a.k + 2);
  }

  /** The aggregators, the rewritten select list, and the plain columns with their positions. */
  method AnalyzeItems(items: seq<Item>) returns (rewritten: seq<Item>, aggrs: seq<Aggregator>, plains: seq<PlainColumn>)
    ensures rewritten == Expand(items) && aggrs == Aggregators(items) && PlainsOf(items, |items|, plains)
  {
    var a := Analysis(items, [], [], 0);
    for i := 0 to |items|
      invariant Stands(items, i, a)
    {
      a := AnalyzeItem(items, i, a);
    }
    assert Halfway(items, |items|) == Expand(items);
    return a.rewritten, a.aggrs, a.plains;
  }

  predicate Readable(tuples: seq<SelectTuple>) {
    forall i | 0 <= i < |tuples| :: ItemOf(tuples[i]).Some?
  }

  function Items(tuples: seq<SelectTuple>): (items: seq<Item>)
    requires Readable(tuples)
    ensures |items| == |tuples| && forall i | 0 <= i < |tuples| :: ItemOf(tuples[i]) == Some(items[i])
  {
    if tuples == [] then [] else Items(tuples[..|tuples| - 1]) + [ItemOf(tuples[|tuples| - 1]).value]
  }

  method ReadTuples(tuples: seq<SelectTuple>) returns (r: Option<seq<Item>>)
    ensures r.Some? <==> Readable(tuples)
    ensures r.Some? ==> r.value == Items(tuples)
  {
    var items := [];
    for i := 0 to |tuples|
      invariant |items| == i && forall k | 0 <= k < i :: ItemOf(tuples[k]) == Some(items[k])
    {
      var item := ItemOf(tuples[i]);
      if item.None? {
        return None;
      }
      items := items + [item.value];
    }
    r := Some(items);
  }

  /** Item j is the column that GROUP BY names. */
  predicate Names(items: seq<Item>, j: nat, field: string) {
    j < |items| && items[j].Plain? && Lower(items[j].field) == Lower(field)
  }

  ghost predicate Groups(items: seq<Item>, field: string, index: nat) {
    exists j :: GroupAt(items, field, index, j)
  }

  predicate GroupAt(items: seq<Item>, field: string, index: nat, j: int) {
    0 <= j < |items| && Names(items, j, field) && index == Pos(items, j)
  }

  ghost predicate Known(items: seq<Item>, field: string) {
    exists j :: 0 <= j < |items| && Names(items, j, field)
  }

  method FindGroup(items: seq<Item>, plains: seq<PlainColumn>, field: string) returns (index: Option<nat>)
    requires PlainsOf(items, |items|, plains)
    ensures index.Some? <==> Known(items, field)
    ensures index.Some? ==> Groups(items, field, index.value)
  {
    for i := 0 to |plains|
      invariant forall k | 0 <= k < i :: Lower(plains[k].field) != Lower(field)
    {
      if Lower(plains[i].field) == Lower(field) {
        assert plains[i] in plains;
        ghost var j :| 0 <= j < |items| && IsPlain(items, j, plains[i]);
        assert Names(items, j, field);
        assert GroupAt(items, field, plains[i].index, j);
        return Some(plains[i].index);
      }
    }
    NoPlain(items, plains, field);
    return None;
  }

  lemma NoPlain(items: seq<Item>, plains: seq<PlainColumn>, field: string)
    requires PlainsOf(items, |items|, plains) && forall k | 0 <= k < |plains| :: Lower(plains[k].field) != Lower(field)
    ensures !Known(items, field)
  {
  }

  lemma GroupIsKnown(items: seq<Item>, field: string, index: nat)
    requires Groups(items, field, index)
    ensures Known(items, field)
  {
    var j :| GroupAt(items, field, index, j);
  }

  ghost predicate AllKnown(items: seq<Item>, groups: seq<string>) {
    forall g | 0 <= g < |groups| :: Known(items, groups[g])
  }

  ghost predicate AllGroups(items: seq<Item>, groups: seq<string>, idxs: seq<nat>) {
    |idxs| == |groups| && forall g | 0 <= g < |groups| :: Groups(items, groups[g], idxs[g])
  }

  lemma GroupsAreKnown(items: seq<Item>, groups: seq<string>, idxs: seq<nat>)
    requires AllGroups(items, groups, idxs)
    ensures AllKnown(items, groups)
  {
    forall g | 0 <= g < |groups| ensures Known(items, groups[g]) {
      GroupIsKnown(items, groups[g], idxs[g]);
    }
  }

  lemma GroupsGrow(items: seq<Item>, groups: seq<string>, g: nat, idxs: seq<nat>, index: nat)
    requires g < |groups| && AllGroups(items, groups[..g], idxs) && Groups(items, groups[g], index)
    ensures AllGroups(items, groups[..g + 1], idxs + [index])
  {
  }

  /** The columns of GROUP BY must all be in the select list. */
  method FindGroups(items: seq<Item>, plains: seq<PlainColumn>, groups: seq<string>) returns (r: Option<seq<nat>>)
    requires PlainsOf(items, |items|, plains)
    ensures r.Some? <==> AllKnown(items, groups)
    ensures r.Some? ==> AllGroups(items, groups, r.value)
  {
    var idxs := [];
    for g := 0 to |groups|
      invariant AllGroups(items, groups[..g], idxs)
    {
      var index := FindGroup(items, plains, groups[g]);
      if index.None? {
        return None;
      }
      GroupsGrow(items, groups, g, idxs, index.value);
      idxs := idxs + [index.value];
    }
    assert groups[..|groups|] == groups;
    GroupsAreKnown(items, groups, idxs);
    r := Some(idxs);
  }

  /** The plan of a select list with aggregates and of its GROUP BY columns. */
  method Analyze(tuples: seq<SelectTuple>, groups: seq<string>) returns (r: Result<Plan>)
    ensures r.Ok? <==> Readable(tuples) && AllKnown(Items(tuples), groups)
    ensures r.Ok? ==> r.value.rewritten == Expand(Items(tuples)) && r.value.normalAggrs == Aggregators(Items(tuples))
    ensures r.Ok? ==> AllGroups(Items(tuples), groups, r.value.groupIdxs)
  {
    var items := ReadTuples(tuples);
    if items.None? {
      return Err("unsupported: select.exprs");
    }
    var rewritten, aggrs, plains := AnalyzeItems(items.value);
    var idxs := FindGroups(items.value, plains, groups);
    if idxs.None? {
      return Err("unsupported: group.by.field.should.be.in.noaggregate.select.list");
    }
    r := Ok(Plan(rewritten, aggrs, idxs.value));
  }
}
