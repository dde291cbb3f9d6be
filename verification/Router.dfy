/** Looking up the segments of a sharded table, by key and by slot. */
module Router {
  import opened Prelude
  import opened SqlExpr
  import opened HashKeys
  import opened HashMap

  /** The jump hash, any function into the slots, and what a float literal is hashed as, if it parses. */
  datatype Hasher = Hasher(jump: HashKey -> int, float: string -> Option<nat>)

  ghost predicate IntoSlots(hash: Hasher, slots: nat) {
    forall key :: 0 <= hash.jump(key) < slots
  }

  /** The partitions of a table. `values` holds the list values of the segments. */
  datatype Partition =
    | HashPart(slots: nat, hash: Hasher, partitions: map<int, Segment>, segments: seq<Segment>)
    | ListPart(segments: seq<Segment>, values: seq<string>)

  /** What building the map of a table establishes. */
  ghost predicate Valid(p: Partition) {
    && (forall j, k | 0 <= j < k < |p.segments| :: p.segments[j].id != p.segments[k].id)
    && match p
       case HashPart(slots, hash, partitions, segments) =>
         && IntoSlots(hash, slots)
         && (forall i | 0 <= i < slots :: i in partitions && partitions[i] in segments)
       case ListPart(segments, values) => |segments| == |values|
  }

  function FindValue(values: seq<string>, text: string): Option<nat> {
    if values == [] then None
    else if values[0] == text then Some(0)
    else
      var k := FindValue(values[1..], text);
      if k.Some? then Some(k.value + 1) else None
  }

  lemma FoundInRange(values: seq<string>, text: string)
    ensures FindValue(values, text).Some? ==> FindValue(values, text).value < |values|
  {
  }

  function GetIndex(p: Partition, v: SqlVal): Result<int> {
    match p
    case HashPart(_, hash, _, _) =>
      var key := KeyOf(v, hash.float);
      if v.typ == OtherVal then Err("hash.unsupported.key.type")
      else if key.None? then Err("hash.getindex.val.key.parser.error")
      else Ok(hash.jump(key.value))
    case ListPart(_, values) =>
      var k := FindValue(values, v.text);
      if k.Some? then Ok(k.value) else Err("Table has no partition for value " + v.text)
  }

  function GetSegment(p: Partition, index: int): Result<Segment> {
    match p
    case HashPart(slots, _, partitions, _) =>
      if index < 0 || index >= slots || index !in partitions then Err("hash.getsegment.index.out.of.range")
      else Ok(partitions[index])
    case ListPart(segments, _) =>
      if index < 0 || index >= |segments| then Err("single.getsegment.index.out.of.range") else Ok(segments[index])
  }

  predicate HasOwner(p: Partition, key: SqlVal) {
    GetIndex(p, key).Ok? && GetSegment(p, GetIndex(p, key).value).Ok?
  }

  /** The segment that holds the rows with this key. */
  function Owner(p: Partition, key: SqlVal): Segment
    requires HasOwner(p, key)
  {
    GetSegment(p, GetIndex(p, key).value).value
  }

  lemma IndexHasSegment(p: Partition, key: SqlVal)
    requires Valid(p) && GetIndex(p, key).Ok?
    ensures HasOwner(p, key) && Owner(p, key) in p.segments
  {
    if p.ListPart? {
      FoundInRange(p.values, key.text);
    }
  }

  /** Segments of the table, none of them twice: a statement runs once on each. */
  predicate EachOnce(p: Partition, segs: seq<Segment>) {
    && (forall seg | seg in segs :: seg in p.segments)
    && (forall j, k | 0 <= j < k < |segs| :: segs[j].id != segs[k].id)
  }

  lemma SameIdSameSegment(p: Partition, a: Segment, b: Segment)
    requires Valid(p) && a in p.segments && b in p.segments && a.id == b.id
    ensures a == b
  {
  }

  /** Equality lookup, or all segments for an open interval. */
  function Lookup(p: Partition, start: Option<SqlVal>, end: Option<SqlVal>): Result<seq<Segment>> {
    if start.None? || end.None? then Ok(p.segments)
    else if start.value.typ != end.value.typ then Err("lookup.key.type.must.be.same")
    else if start.value.text == end.value.text then
      var idx := GetIndex(p, start.value);
      if idx.Err? then Err(idx.error)
      else
        var seg := GetSegment(p, idx.value);
        if seg.Err? then Err(seg.error) else Ok([seg.value])
    else Ok(p.segments)
  }

  method HasRange(segs: seq<Segment>, id: nat) returns (found: bool)
    ensures found <==> exists k :: 0 <= k < |segs| && segs[k].id == id
  {
    for j := 0 to |segs|
      invariant forall k | 0 <= k < j :: segs[k].id != id
    {
      if segs[j].id == id {
        return true;
      }
    }
    return false;
  }

  predicate AllFound(p: Partition, indexes: seq<int>) {
    forall i | 0 <= i < |indexes| :: GetSegment(p, indexes[i]).Ok?
  }

  /** The segments of some slots in their order, each once. */
  function Picked(p: Partition, indexes: seq<int>): seq<Segment>
    requires AllFound(p, indexes)
  {
    if indexes == [] then []
    else
      var n := |indexes| - 1;
      var segs := Picked(p, indexes[..n]);
      var seg := GetSegment(p, indexes[n]).value;
      if seg in segs then segs else segs + [seg]
  }

  lemma PickedNext(p: Partition, indexes: seq<int>, i: nat)
    requires i < |indexes| && AllFound(p, indexes[..i]) && GetSegment(p, indexes[i]).Ok?
    ensures AllFound(p, indexes[..i + 1])
    ensures var segs, seg := Picked(p, indexes[..i]), GetSegment(p, indexes[i]).value;
            Picked(p, indexes[..i + 1]) == if seg in segs then segs else segs + [seg]
  {
    assert indexes[..i + 1][..i] == indexes[..i];
  }

  /** A segment is among those picked exactly when its identity is, and can be added otherwise. */
  lemma OnceMore(p: Partition, index: int, segs: seq<Segment>)
    requires Valid(p) && EachOnce(p, segs) && GetSegment(p, index).Ok?
    ensures var seg := GetSegment(p, index).value;
            && (seg in segs <==> exists k :: 0 <= k < |segs| && segs[k].id == seg.id)
            && (seg !in segs ==> EachOnce(p, segs + [seg]))
  {
    var seg := GetSegment(p, index).value;
    assert seg in p.segments;
    if k :| 0 <= k < |segs| && segs[k].id == seg.id {
      SameIdSameSegment(p, segs[k], seg);
    }
  }

  lemma {:induction false} PickedExactly(p: Partition, indexes: seq<int>, seg: Segment)
    requires AllFound(p, indexes)
    ensures seg in Picked(p, indexes) <==> exists i :: 0 <= i < |indexes| && GetSegment(p, indexes[i]) == Ok(seg)
  {
    if indexes != [] {
      var n := |indexes| - 1;
      PickedExactly(p, indexes[..n], seg);
      assert forall i | 0 <= i < n :: indexes[..n][i] == indexes[i];
    }
  }

  lemma PickedAll(p: Partition, indexes: seq<int>)
    requires AllFound(p, indexes)
    ensures forall i | 0 <= i < |indexes| :: GetSegment(p, indexes[i]).value in Picked(p, indexes)
    ensures forall seg :: seg in Picked(p, indexes) <==>
              exists i :: 0 <= i < |indexes| && GetSegment(p, indexes[i]) == Ok(seg)
  {
    forall seg ensures seg in Picked(p, indexes) <==>
      exists i :: 0 <= i < |indexes| && GetSegment(p, indexes[i]) == Ok(seg)
    {
      PickedExactly(p, indexes, seg);
    }
    forall i | 0 <= i < |indexes| ensures GetSegment(p, indexes[i]).value in Picked(p, indexes) {
      PickedExactly(p, indexes, GetSegment(p, indexes[i]).value);
    }
  }

  /** The segments of a list of slots, each once; all segments for the empty list. */
  method GetSegments(p: Partition, indexes: seq<int>) returns (r: Result<seq<Segment>>)
    requires Valid(p)
    ensures indexes == [] ==> r == Ok(p.segments)
    ensures r.Ok? <==> AllFound(p, indexes)
    ensures r.Ok? ==> EachOnce(p, r.value)
    ensures r.Ok? && indexes != [] ==> r.value == Picked(p, indexes)
  {
    if |indexes| == 0 {
      return Ok(p.segments);
    }
    var segs: seq<Segment> := [];
    for i := 0 to |indexes|
      invariant AllFound(p, indexes[..i]) && segs == Picked(p, indexes[..i]) && EachOnce(p, segs)
    {
      var segment := GetSegment(p, indexes[i]);
      if segment.Err? {
        return Err(segment.error);
      }
      PickedNext(p, indexes, i);
      OnceMore(p, indexes[i], segs);
      var isRepeat := HasRange(segs, segment.value.id);
      if !isRepeat {
        segs := segs + [segment.value];
      }
    }
    assert indexes[..|indexes|] == indexes;
    r := Ok(segs);
  }
}
