/** The slot map of a hash-sharded table: how it is laid out, and what an accepted map covers. */
module HashMap {
  import opened Prelude
  import opened Decimal
  import opened Sorting

  datatype PartitionConfig = PartitionConfig(table: string, segment: string, backend: string)

  /** `id` stands for the identity of the range object that segments are compared by. */
  datatype Segment = Segment(table: string, backend: string, id: nat, start: nat, end: nat)

  // ----- The texts of a configuration, read ----------------------------------------------

  function RangeOf(part: PartitionConfig): Option<(nat, nat)> {
    ParseSegment(part.segment)
  }

  predicate AllParse(parts: seq<PartitionConfig>) {
    forall k | 0 <= k < |parts| :: RangeOf(parts[k]).Some?
  }

  function SegmentAt(parts: seq<PartitionConfig>, k: nat): Segment
    requires k < |parts| && RangeOf(parts[k]).Some?
  {
    var range := RangeOf(parts[k]).value;
    Segment(parts[k].table, parts[k].backend, k, range.0, range.1)
  }

  function SegmentsOf(parts: seq<PartitionConfig>): (segs: seq<Segment>)
    requires AllParse(parts)
    ensures |segs| == |parts| && forall k | 0 <= k < |parts| :: segs[k] == SegmentAt(parts, k)
  {
    seq(|parts|, k requires 0 <= k < |parts| => SegmentAt(parts, k))
  }

  predicate Covers(seg: Segment, slot: int) { seg.start <= slot < seg.end }

  predicate Disjoint(segs: seq<Segment>) {
    forall j, k | 0 <= j < k < |segs| :: segs[j].end <= segs[k].start || segs[k].end <= segs[j].start
  }

  function TotalWidth(segs: seq<Segment>): int {
    if segs == [] then 0
    else TotalWidth(segs[..|segs| - 1]) + segs[|segs| - 1].end - segs[|segs| - 1].start
  }

  /** What Build asks of a configuration. */
  predicate Accepts(parts: seq<PartitionConfig>, slots: nat) {
    && AllParse(parts)
    && Disjoint(SegmentsOf(parts))
    && TotalWidth(SegmentsOf(parts)) == slots
  }

  /** The map from slots to segments holds exactly what the segments cover. */
  ghost predicate MapsSlots(partitions: map<int, Segment>, segs: seq<Segment>) {
    && (forall i | i in partitions :: partitions[i] in segs && Covers(partitions[i], i))
    && (forall seg, i | seg in segs && Covers(seg, i) :: i in partitions && partitions[i] == seg)
  }

  function SegmentLe(): (Segment, Segment) -> bool {
    (a: Segment, b: Segment) => a.start <= b.start
  }

  /** `after` is `before` with the slots of seg below i added. */
  ghost predicate Filled(before: map<int, Segment>, after: map<int, Segment>, seg: Segment, i: int) {
    && (forall j :: j in after <==> j in before || seg.start <= j < i)
    && (forall j | j in before :: after[j] == before[j])
    && (forall j | seg.start <= j < i :: j !in before && j in after && after[j] == seg)
  }

  lemma FilledStep(before: map<int, Segment>, after: map<int, Segment>, seg: Segment, i: int)
    requires Filled(before, after, seg, i) && i !in after && seg.start <= i
    ensures Filled(before, after[i := seg], seg, i + 1) && |after[i := seg]| == |after| + 1
  {
    var grown := after[i := seg];
    forall j | seg.start <= j < i + 1 ensures j !in before && j in grown && grown[j] == seg {
      if j == i {
        assert i !in before;
      }
    }
    assert grown.Keys == after.Keys + {i};
  }

  lemma FilledMapsSlots(before: map<int, Segment>, after: map<int, Segment>, segs: seq<Segment>, seg: Segment)
    requires MapsSlots(before, segs) && Filled(before, after, seg, seg.end)
    ensures MapsSlots(after, segs + [seg])
    ensures TotalWidth(segs + [seg]) == TotalWidth(segs) + seg.end - seg.start
  {
    assert (segs + [seg])[..|segs|] == segs;
    forall s, i | s in segs + [seg] && Covers(s, i) ensures i in after && after[i] == s {
      assert s in segs || s == seg;
    }
  }

  class Hash {
    const slots: nat
    const conf: seq<PartitionConfig>
    var partitions: map<int, Segment>
    var segments: seq<Segment>

    constructor (slots: nat, conf: seq<PartitionConfig>)
      ensures this.slots == slots && this.conf == conf && partitions == map[] && segments == []
    {
      this.slots, this.conf, partitions, segments := slots, conf, map[], [];
    }

    /** Fills in the slots of one segment until one of them is taken. */
    method FillSlots(seg: Segment) returns (taken: Option<int>)
      requires seg.start < seg.end
      modifies `partitions
      ensures taken.Some? ==> Covers(seg, taken.value) && taken.value in old(partitions)
      ensures taken.None? ==> Filled(old(partitions), partitions, seg, seg.end)
      ensures taken.None? ==> |partitions| == |old(partitions)| + (seg.end - seg.start)
    {
      for i := seg.start to seg.end
        invariant Filled(old(partitions), partitions, seg, i)
        invariant |partitions| == |old(partitions)| + (i - seg.start)
      {
        if i in partitions {
          return Some(i);
        }
        FilledStep(old(partitions), partitions, seg, i);
        partitions := partitions[i := seg];
      }
      return None;
    }

    /** Fills in one segment, or reports that it overlaps an earlier one. */
    method AddSegment(seg: Segment) returns (ok: bool)
      requires MapsSlots(partitions, segments) && Disjoint(segments) && |partitions| == TotalWidth(segments)
      requires seg.start < seg.end && forall k | 0 <= k < |segments| :: segments[k].start < segments[k].end
      modifies this
      ensures ok <==> Disjoint(old(segments) + [seg])
      ensures ok ==> segments == old(segments) + [seg]
      ensures ok ==> MapsSlots(partitions, segments) && |partitions| == TotalWidth(segments)
    {
      var taken := FillSlots(seg);
      if taken.Some? {
        OverlapIsFound(segments, seg, old(partitions)[taken.value], taken.value);
        return false;
      }
      NoOverlapIsDisjoint(old(partitions), segments, seg);
      FilledMapsSlots(old(partitions), partitions, segments, seg);
      segments := segments + [seg];
      ok := true;
    }

    /** Builds the map; it is accepted exactly when the texts parse, the ranges are disjoint and their widths add up. */
    method Build() returns (ok: bool)
      requires partitions == map[] && segments == []
      modifies this
      ensures ok <==> Accepts(conf, slots)
      ensures ok ==> MapsSlots(partitions, SegmentsOf(conf)) && |partitions| == slots
      ensures ok ==> SortOf(segments, SegmentsOf(conf), SegmentLe())
    {
      for k := 0 to |conf|
        invariant AllParse(conf[..k]) && segments == SegmentsOf(conf[..k])
        invariant Disjoint(segments) && MapsSlots(partitions, segments) && |partitions| == TotalWidth(segments)
      {
        var range := ParseSegment(conf[k].segment);
        if range.None? {
          assert RangeOf(conf[k]).None?;
          return false;
        }
        var seg := Segment(conf[k].table, conf[k].backend, k, range.value.0, range.value.1);
        SegmentsOfGrows(conf, k);
        var added := AddSegment(seg);
        if !added {
          PrefixOverlaps(conf, k + 1);
          return false;
        }
      }
      assert conf[..|conf|] == conf;
      if |partitions| != slots {
        return false;
      }
      segments := Sort(segments, SegmentLe());
      ok := true;
    }

    /** The segment of a slot. */
    method GetSegment(index: int) returns (r: Result<Segment>)
      requires forall i | 0 <= i < slots :: i in partitions
      ensures r.Ok? <==> 0 <= index < slots
      ensures r.Ok? ==> r.value == partitions[index]
    {
      if index < 0 || index >= slots {
        return Err("hash.getsegment.index.out.of.range");
      }
      return Ok(partitions[index]);
    }
  }

  lemma SegmentsOfGrows(conf: seq<PartitionConfig>, k: nat)
    requires k < |conf| && AllParse(conf[..k]) && RangeOf(conf[k]).Some?
    ensures AllParse(conf[..k + 1]) && SegmentsOf(conf[..k + 1]) == SegmentsOf(conf[..k]) + [SegmentAt(conf, k)]
    ensures forall i | 0 <= i < k :: SegmentsOf(conf[..k])[i].start < SegmentsOf(conf[..k])[i].end
  {
    var prefix := conf[..k + 1];
    forall i | 0 <= i < |prefix| ensures RangeOf(prefix[i]).Some? {
      if i < k {
        assert prefix[i] == conf[..k][i];
      }
    }
    forall i | 0 <= i < k ensures SegmentsOf(conf[..k + 1])[i] == SegmentsOf(conf[..k])[i] {
      assert conf[..k + 1][i] == conf[..k][i];
    }
  }

  lemma PrefixOverlaps(conf: seq<PartitionConfig>, k: nat)
    requires k <= |conf| && AllParse(conf[..k]) && !Disjoint(SegmentsOf(conf[..k]))
    ensures forall slots :: !Accepts(conf, slots)
  {
    if AllParse(conf) {
      forall i | 0 <= i < k ensures SegmentsOf(conf[..k])[i] == SegmentsOf(conf)[i] {
        assert conf[..k][i] == conf[i];
      }
    }
  }

  lemma OverlapIsFound(segs: seq<Segment>, seg: Segment, other: Segment, i: int)
    requires other in segs && Covers(other, i) && Covers(seg, i)
    ensures !Disjoint(segs + [seg])
  {
    var k :| 0 <= k < |segs| && segs[k] == other;
    assert (segs + [seg])[k] == other && (segs + [seg])[|segs|] == seg;
  }

  lemma NoOverlapIsDisjoint(partitions: map<int, Segment>, segs: seq<Segment>, seg: Segment)
    requires MapsSlots(partitions, segs) && Disjoint(segs)
    requires seg.start < seg.end && forall k | 0 <= k < |segs| :: segs[k].start < segs[k].end
    requires forall j | seg.start <= j < seg.end :: j !in partitions
    ensures Disjoint(segs + [seg])
  {
    forall k | 0 <= k < |segs| ensures segs[k].end <= seg.start || seg.end <= segs[k].start {
      var low := if segs[k].start <= seg.start then seg.start else segs[k].start;
      assert segs[k] in segs;
      if low < segs[k].end && low < seg.end {
        assert Covers(segs[k], low) && low !in partitions;
      }
    }
  }

  // ----- What an accepted map covers ------------------------------------------------------

  lemma {:induction false} SlotSet(n: nat) returns (all: set<int>)
    ensures (forall i :: i in all <==> 0 <= i < n) && |all| == n
  {
    if n == 0 {
      all := {};
    } else {
      var rest := SlotSet(n - 1);
      all := rest + {n - 1};
    }
  }

  /**
    Build only compares the number of slots. Its map covers exactly the slots [0, slots) if and only
    if no segment ends beyond `slots`.
  */
  lemma CoversAllSlots(partitions: map<int, Segment>, segs: seq<Segment>, slots: nat)
    requires MapsSlots(partitions, segs) && |partitions| == slots
    requires forall k | 0 <= k < |segs| :: segs[k].start < segs[k].end
    ensures (forall k | 0 <= k < |segs| :: segs[k].end <= slots) <==> (forall i :: i in partitions <==> 0 <= i < slots)
  {
    if forall k | 0 <= k < |segs| :: segs[k].end <= slots {
      var all := SlotSet(slots);
      assert |partitions.Keys| == slots;
      forall i | i in partitions.Keys ensures i in all {
        assert partitions[i] in segs && Covers(partitions[i], i);
      }
      SubsetOfSameSize(partitions.Keys, all);
      assert forall i :: i in partitions <==> i in partitions.Keys;
    } else {
      var k :| 0 <= k < |segs| && segs[k].end > slots;
      assert segs[k] in segs && Covers(segs[k], segs[k].end - 1);
    }
  }

  lemma SubsetOfSameSize(a: set<int>, b: set<int>)
    requires a <= b && |a| == |b|
    ensures a == b
  {
    assert |b - a| == |b| - |a|;
  }

  /** The segment covers the slot and no other segment does. */
  ghost predicate OnlyCover(segs: seq<Segment>, k: nat, slot: int) {
    k < |segs| && Covers(segs[k], slot) && forall j | 0 <= j < |segs| && Covers(segs[j], slot) :: j == k
  }

  ghost predicate InOneSegment(segs: seq<Segment>, slot: int) {
    exists k: nat :: OnlyCover(segs, k, slot)
  }

  /** Every slot of [0, slots) is in exactly one segment if and only if no segment ends beyond `slots`. */
  lemma CoveredOnce(partitions: map<int, Segment>, segs: seq<Segment>, slots: nat)
    requires MapsSlots(partitions, segs) && |partitions| == slots && Disjoint(segs)
    requires forall k | 0 <= k < |segs| :: segs[k].start < segs[k].end
    ensures (forall k | 0 <= k < |segs| :: segs[k].end <= slots) <==>
            (forall i | 0 <= i < slots :: InOneSegment(segs, i))
  {
    CoversAllSlots(partitions, segs, slots);
    if forall k | 0 <= k < |segs| :: segs[k].end <= slots {
      forall i | 0 <= i < slots ensures InOneSegment(segs, i) {
        assert i in partitions;
        var k :| 0 <= k < |segs| && segs[k] == partitions[i];
        assert OnlyCover(segs, k, i);
      }
    }
    if forall i | 0 <= i < slots :: InOneSegment(segs, i) {
      var all := SlotSet(slots);
      forall i | i in all ensures i in partitions.Keys {
        assert InOneSegment(segs, i);
        var k: nat :| OnlyCover(segs, k, i);
        assert segs[k] in segs;
      }
      assert |partitions.Keys| == slots;
      SubsetOfSameSize(all, partitions.Keys);
      forall i ensures i in partitions <==> 0 <= i < slots {
        assert i in partitions <==> i in partitions.Keys;
      }
    }
  }

  /** An accepted map that leaves slot 0 uncovered. */
  lemma SlotZeroCanBeMissing()
    ensures var conf := [PartitionConfig("t_0000", "1-5", "backend0")];
            Accepts(conf, 4) && !Covers(SegmentsOf(conf)[0], 0)
  {
    var conf := [PartitionConfig("t_0000", "1-5", "backend0")];
    assert Show(1) == "1" && Show(5) == "5";
    assert ShowSegment(1, 5) == "1-5";
    SegmentRoundTrip(1, 5);
    assert AllParse(conf);
    var segs := SegmentsOf(conf);
    assert segs[..0] == [];
    assert TotalWidth(segs) == 4;
  }
}
