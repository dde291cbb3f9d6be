/** The even layout of hash slots over backends that a new table starts with. */
module HashUniform {
  import opened Prelude
  import opened Seqs
  import opened Sorting
  import opened Decimal
  import opened HashMap

  const PARTITION_NUMS: seq<int> := [8, 16, 32, 64]

  datatype TableConfig = TableConfig(name: string, slots: nat, blocks: nat, shardKey: string,
                                     partitions: seq<PartitionConfig>)

  // ----- Strings --------------------------------------------------------------------------

  predicate StringLe(a: string, b: string) {
    if a == "" then true
    else if b == "" then false
    else a[0] < b[0] || (a[0] == b[0] && StringLe(a[1..], b[1..]))
  }

  lemma StringLeTotal(a: string, b: string)
    ensures StringLe(a, b) || StringLe(b, a)
  {
  }

  lemma {:induction false} StringLeChains(a: string, b: string, c: string)
    requires StringLe(a, b) && StringLe(b, c)
    ensures StringLe(a, c)
  {
    if a != "" && a[0] == b[0] && b[0] == c[0] {
      StringLeChains(a[1..], b[1..], c[1..]);
    }
  }

  lemma StringLeIsTotalPreorder()
    ensures TotalPreorder(StringLe)
  {
    forall a, b ensures StringLe(a, b) || StringLe(b, a) {
      StringLeTotal(a, b);
    }
    forall a, b, c | StringLe(a, b) && StringLe(b, c) ensures StringLe(a, c) {
      StringLeChains(a, b, c);
    }
  }

  /** fmt's %04d */
  function Pad4(n: nat): string {
    var s := Show(n);
    if |s| >= 4 then s else if |s| == 3 then "0" + s else if |s| == 2 then "00" + s else "000" + s
  }

  function PartitionName(table: string, k: nat): string {
    table + "_" + Pad4(k)
  }

  lemma Pad4Parses(n: nat)
    ensures ParseDigits(Pad4(n)) == Some(n)
  {
    ShowParses(n);
    var s := Show(n);
    if |s| < 4 {
      LeadingZero(s);
      if |s| < 3 {
        TwoZeros(s);
        if |s| < 2 {
          TwoZeros("0" + s);
          assert "00" + ("0" + s) == "000" + s;
        }
      }
    }
  }

  lemma TwoZeros(s: string)
    ensures ParseDigits("00" + s) == ParseDigits(s)
  {
    LeadingZero(s);
    LeadingZero("0" + s);
    assert "0" + ("0" + s) == "00" + s;
  }

  /** Two partitions of a table never share a name. */
  lemma NamesDiffer(table: string, j: nat, k: nat)
    requires j != k
    ensures PartitionName(table, j) != PartitionName(table, k)
  {
    Pad4Parses(j);
    Pad4Parses(k);
    var n := |table| + 1;
    assert PartitionName(table, j)[n..] == Pad4(j) && PartitionName(table, k)[n..] == Pad4(k);
  }

  // ----- Tilings ----------------------------------------------------------------------------

  /** The partitions are the gaps between consecutive bounds, from 0 to slots. */
  predicate Tiles(parts: seq<PartitionConfig>, bounds: seq<nat>, slots: nat) {
    && |bounds| == |parts| + 1
    && bounds[0] == 0 && bounds[|parts|] == slots
    && forall k {:trigger parts[k]} | 0 <= k < |parts| ::
         bounds[k] < bounds[k + 1] && parts[k].segment == ShowSegment(bounds[k], bounds[k + 1])
  }

  predicate Increasing(bounds: seq<nat>) {
    forall k | 0 < k < |bounds| :: bounds[k - 1] < bounds[k]
  }

  lemma TilesIncrease(parts: seq<PartitionConfig>, bounds: seq<nat>, slots: nat)
    requires Tiles(parts, bounds, slots)
    ensures Increasing(bounds)
  {
    forall k | 0 < k < |bounds| ensures bounds[k - 1] < bounds[k] {
      var part := parts[k - 1];
    }
  }

  lemma {:induction false} BoundsGrow(bounds: seq<nat>, i: nat, j: nat)
    requires i <= j < |bounds| && Increasing(bounds)
    ensures bounds[i] <= bounds[j]
  {
    if i < j {
      BoundsGrow(bounds, i, j - 1);
    }
  }

  lemma {:induction false} WidthsAddUp(segs: seq<Segment>, bounds: seq<nat>)
    requires |bounds| == |segs| + 1
    requires forall k {:trigger segs[k]} | 0 <= k < |segs| :: segs[k].start == bounds[k] && segs[k].end == bounds[k + 1]
    ensures TotalWidth(segs) + bounds[0] == bounds[|segs|]
  {
    if segs != [] {
      WidthsAddUp(segs[..|segs| - 1], bounds[..|segs|]);
    }
  }

  lemma TileParses(parts: seq<PartitionConfig>, bounds: seq<nat>, slots: nat, k: nat)
    requires Tiles(parts, bounds, slots) && slots <= MAX_INT && k < |parts|
    ensures RangeOf(parts[k]) == Some((bounds[k], bounds[k + 1])) && bounds[k + 1] <= slots
  {
    TilesIncrease(parts, bounds, slots);
    BoundsGrow(bounds, k + 1, |parts|);
    SegmentRoundTrip(bounds[k], bounds[k + 1]);
  }

  /** Build accepts every tiling, after its bounds were printed and parsed again. */
  lemma TilingIsAccepted(parts: seq<PartitionConfig>, bounds: seq<nat>, slots: nat)
    requires Tiles(parts, bounds, slots) && slots <= MAX_INT
    ensures Accepts(parts, slots)
    ensures forall k | 0 <= k < |parts| :: SegmentsOf(parts)[k].end <= slots
  {
    forall k | 0 <= k < |parts| ensures RangeOf(parts[k]).Some? {
      TileParses(parts, bounds, slots, k);
    }
    var segs := SegmentsOf(parts);
    forall k {:trigger segs[k]} | 0 <= k < |segs| ensures segs[k].start == bounds[k] && segs[k].end == bounds[k + 1] &&
      segs[k].end <= slots {
      TileParses(parts, bounds, slots, k);
    }
    TilesIncrease(parts, bounds, slots);
    forall j, k | 0 <= j < k < |segs| ensures segs[j].end <= segs[k].start {
      BoundsGrow(bounds, j + 1, k);
    }
    WidthsAddUp(segs, bounds);
  }

  // ----- The layout ---------------------------------------------------------------------------

  function Repeat(b: string, n: nat): seq<string> {
    if n == 0 then [] else Repeat(b, n - 1) + [b]
  }

  function BackendsOf(parts: seq<PartitionConfig>): (bs: seq<string>)
    ensures |bs| == |parts| && forall k | 0 <= k < |parts| :: bs[k] == parts[k].backend
  {
    seq(|parts|, k requires 0 <= k < |parts| => parts[k].backend)
  }

  /** A layout that has reached the slot bounds[|parts|]. */
  predicate LaidOut(parts: seq<PartitionConfig>, bounds: seq<nat>, table: string, blocks: nat, nums: nat) {
    && |bounds| == |parts| + 1 && bounds[0] == 0
    && forall k | 0 <= k < |parts| :: LaidAt(parts, bounds, table, blocks, nums, k)
  }

  predicate LaidAt(parts: seq<PartitionConfig>, bounds: seq<nat>, table: string, blocks: nat, nums: nat, k: nat)
    requires k < |parts| && |bounds| == |parts| + 1
  {
    && blocks <= bounds[k + 1] - bounds[k] < 2 * blocks + nums
    && parts[k].segment == ShowSegment(bounds[k], bounds[k + 1])
    && parts[k].table == PartitionName(table, k)
  }

  lemma LayOne(parts: seq<PartitionConfig>, bounds: seq<nat>, table: string, blocks: nat, nums: nat, max: nat,
               backend: string)
    requires LaidOut(parts, bounds, table, blocks, nums)
    requires blocks <= max - bounds[|parts|] < 2 * blocks + nums
    ensures var part := PartitionConfig(PartitionName(table, |parts|), ShowSegment(bounds[|parts|], max), backend);
            && LaidOut(parts + [part], bounds + [max], table, blocks, nums)
            && BackendsOf(parts + [part]) == BackendsOf(parts) + [backend]
  {
    var part := PartitionConfig(PartitionName(table, |parts|), ShowSegment(bounds[|parts|], max), backend);
    forall k | 0 <= k < |parts + [part]| ensures LaidAt(parts + [part], bounds + [max], table, blocks, nums, k) {
      if k < |parts| {
        assert LaidAt(parts, bounds, table, blocks, nums, k);
      }
    }
  }

  /** Where partition i of a backend begins, and where it ends: the last one takes the rest. */
  lemma BlockFits(i: nat, step: nat, tables: nat, blocks: nat, end: nat, nums: nat)
    requires i < tables && tables * blocks <= end - step < tables * blocks + blocks + nums
    ensures (i + 1) * blocks == i * blocks + blocks
    ensures blocks < 2 * blocks + nums
    ensures i == tables - 1 ==> blocks <= end - (i * blocks + step) < 2 * blocks + nums
  {
  }

  /** The partitions of one backend, from `step` up to `end`. */
  method LayShard(parts: seq<PartitionConfig>, ghost bounds: seq<nat>, table: string, backend: string,
                  step: nat, tables: nat, blocks: nat, end: nat, ghost nums: nat)
    returns (parts': seq<PartitionConfig>, ghost bounds': seq<nat>)
    requires LaidOut(parts, bounds, table, blocks, nums) && bounds[|parts|] == step
    requires tables >= 1 && tables * blocks <= end - step < tables * blocks + blocks + nums
    ensures LaidOut(parts', bounds', table, blocks, nums) && bounds'[|parts'|] == end
    ensures |parts'| == |parts| + tables
    ensures BackendsOf(parts') == BackendsOf(parts) + Repeat(backend, tables)
  {
    parts', bounds' := parts, bounds;
    for i := 0 to tables
      invariant LaidOut(parts', bounds', table, blocks, nums) && |parts'| == |parts| + i
      invariant bounds'[|parts'|] == if i == tables then end else step + i * blocks
      invariant BackendsOf(parts') == BackendsOf(parts) + Repeat(backend, i)
    {
      var min := i * blocks + step;
      var max := (i + 1) * blocks + step;
      BlockFits(i, step, tables, blocks, end, nums);
      if i == tables - 1 {
        max := end;
      }
      LayOne(parts', bounds', table, blocks, nums, max, backend);
      parts' := parts' + [PartitionConfig(PartitionName(table, |parts'|), ShowSegment(min, max), backend)];
      bounds' := bounds' + [max];
    }
  }

  lemma ShardSizes(slots: nat, nums: nat, blocks: nat)
    requires 1 <= nums && 1 <= blocks
    ensures var per := slots / nums; var tables := per / blocks;
            && nums * per <= slots < nums * per + nums
            && tables * blocks <= per < tables * blocks + blocks
            && (blocks <= per ==> tables >= 1)
  {
  }

  /** Consecutive partitions, equally many on each backend in sorted order. */
  ghost predicate EvenLayout(parts: seq<PartitionConfig>, bounds: seq<nat>, table: string,
                             backends: seq<string>, slots: nat, blocks: nat) {
    exists sorted: seq<string> :: SortOf(sorted, backends, StringLe) &&
      Shares(parts, bounds, table, sorted, slots, blocks)
  }

  /** The partitions reach up to `slots`; there are none at all when a block does not fit a backend's share. */
  ghost predicate Shares(parts: seq<PartitionConfig>, bounds: seq<nat>, table: string,
                         backends: seq<string>, slots: nat, blocks: nat) {
    && 1 <= |backends| && 1 <= blocks
    && SharesOf(parts, bounds, table, backends, slots, blocks, slots / |backends|, slots / |backends| / blocks)
  }

  /** With `per` slots and `tables` partitions for each backend. */
  ghost predicate SharesOf(parts: seq<PartitionConfig>, bounds: seq<nat>, table: string,
                           backends: seq<string>, slots: nat, blocks: nat, per: nat, tables: nat) {
    && SameShares(parts, bounds, table, backends, blocks, tables)
    && (if blocks <= per then bounds[|parts|] == slots else parts == [])
  }

  /** Each backend in turn has as many partitions as the others. */
  ghost predicate SameShares(parts: seq<PartitionConfig>, bounds: seq<nat>, table: string,
                             backends: seq<string>, blocks: nat, tables: nat) {
    && LaidOut(parts, bounds, table, blocks, |backends|)
    && BackendsOf(parts) == FlatMap(b => Repeat(b, tables), backends)
  }

  /**
    Lays the slots out over the backends, in sorted order, with equally many partitions on each. A block
    of no slots, configured or by more partitions than slots, makes the code divide by zero. The result
    tiles [0, slots) and the hash map accepts it.
  */
  method Layout(table: string, shardkey: string, backends: seq<string>, slots: nat, confBlocks: nat,
                partitionNum: Option<string>)
    returns (r: Result<TableConfig>, ghost bounds: seq<nat>)
    requires slots <= MAX_INT
    ensures r.Ok? <==>
      && table != "" && shardkey != "" && 0 < |backends| < slots
      && (partitionNum.Some? ==> Atoi(partitionNum.value).Some? && Atoi(partitionNum.value).value in PARTITION_NUMS)
      && (if partitionNum.None? then confBlocks >= 1 else Atoi(partitionNum.value).value <= slots)
    ensures r.Ok? ==>
      && r.value.slots == slots && r.value.shardKey == shardkey && r.value.name == table
      && r.value.blocks == if partitionNum.None? then confBlocks else slots / Atoi(partitionNum.value).value
    ensures r.Ok? ==>
      1 <= r.value.blocks && EvenLayout(r.value.partitions, bounds, table, backends, slots, r.value.blocks)
    ensures r.Ok? && r.value.blocks <= slots / |backends| ==>
      Tiles(r.value.partitions, bounds, slots) && Accepts(r.value.partitions, slots)
  {
    bounds := [0];
    if table == "" {
      return Err("table.cant.be.null"), bounds;
    }
    if shardkey == "" {
      return Err("shard.key.cant.be.null"), bounds;
    }
    var blocks := confBlocks;
    if partitionNum.Some? {
      var num := Atoi(partitionNum.value);
      if num.None? {
        return Err("strconv.Atoi"), bounds;
      }
      if num.value !in PARTITION_NUMS {
        return Err("number.of.partitions.must.be.one.of.the.list.[8, 16, 32, 64]"), bounds;
      }
      blocks := slots / num.value;
    }
    var nums := |backends|;
    if nums == 0 {
      return Err("router.compute.backends.is.null"), bounds;
    }
    if nums >= slots {
      return Err("router.compute.backends.too.many"), bounds;
    }
    if blocks == 0 {
      return Err("runtime error: integer divide by zero"), bounds;
    }
    StringLeIsTotalPreorder();
    var sorted := Sort(backends, StringLe);
    assert |multiset(sorted)| == |multiset(backends)|;
    var parts;
    parts, bounds := LayShards(table, sorted, slots, blocks);
    if blocks <= slots / nums {
      LaidOutTiles(parts, bounds, table, blocks, nums, slots);
      TilingIsAccepted(parts, bounds, slots);
    }
    r := Ok(TableConfig(table, slots, blocks, shardkey, parts));
  }

  lemma LaidOutTiles(parts: seq<PartitionConfig>, bounds: seq<nat>, table: string, blocks: nat, nums: nat, slots: nat)
    requires LaidOut(parts, bounds, table, blocks, nums) && blocks >= 1 && bounds[|parts|] == slots
    ensures Tiles(parts, bounds, slots)
  {
    forall k {:trigger parts[k]} | 0 <= k < |parts|
      ensures bounds[k] < bounds[k + 1] && parts[k].segment == ShowSegment(bounds[k], bounds[k + 1])
    {
      assert LaidAt(parts, bounds, table, blocks, nums, k);
    }
  }

  lemma NextShard(s: nat, nums: nat, slots: nat, per: nat)
    requires s < nums && nums * per <= slots < nums * per + nums
    ensures (s + 1) * per == s * per + per
    ensures s == nums - 1 ==> per <= slots - s * per < per + nums
  {
  }

  method LayShards(table: string, backends: seq<string>, slots: nat, blocks: nat)
    returns (parts: seq<PartitionConfig>, ghost bounds: seq<nat>)
    requires 1 <= |backends| < slots && 1 <= blocks
    ensures Shares(parts, bounds, table, backends, slots, blocks)
    ensures parts == [] <==> slots / |backends| < blocks
  {
    var slotsPerShard := slots / |backends|;
    var tablesPerShard := slotsPerShard / blocks;
    ShardSizes(slots, |backends|, blocks);
    parts, bounds := LayEach(table, backends, slots, blocks, slotsPerShard, tablesPerShard);
  }

  /** No partitions at all when a block does not fit the share of a backend. */
  method LayEach(table: string, backends: seq<string>, slots: nat, blocks: nat, slotsPerShard: nat,
                 tablesPerShard: nat)
    returns (parts: seq<PartitionConfig>, ghost bounds: seq<nat>)
    requires 1 <= |backends| < slots && 1 <= blocks
    requires |backends| * slotsPerShard <= slots < |backends| * slotsPerShard + |backends|
    requires tablesPerShard * blocks <= slotsPerShard < tablesPerShard * blocks + blocks
    ensures SharesOf(parts, bounds, table, backends, slots, blocks, slotsPerShard, tablesPerShard)
    ensures parts == [] <==> slotsPerShard < blocks
  {
    Fits(slotsPerShard, blocks, tablesPerShard);
    if tablesPerShard == 0 {
      parts, bounds := [], [0];
      FlatMapNothing(b => Repeat(b, 0), backends);
    } else {
      parts, bounds := LayAll(table, backends, slots, blocks, slotsPerShard, tablesPerShard);
    }
  }

  lemma Fits(share: nat, blocks: nat, tables: nat)
    requires 1 <= blocks && tables * blocks <= share < tables * blocks + blocks
    ensures tables == 0 <==> share < blocks
  {
  }

  /** The shares of the backends, one after the other; the last one takes what is left over. */
  method LayAll(table: string, backends: seq<string>, slots: nat, blocks: nat, slotsPerShard: nat, tablesPerShard: nat)
    returns (parts: seq<PartitionConfig>, ghost bounds: seq<nat>)
    requires 1 <= |backends| && 1 <= tablesPerShard
    requires |backends| * slotsPerShard <= slots < |backends| * slotsPerShard + |backends|
    requires tablesPerShard * blocks <= slotsPerShard < tablesPerShard * blocks + blocks
    ensures SameShares(parts, bounds, table, backends, blocks, tablesPerShard) && bounds[|parts|] == slots
  {
    var nums := |backends|;
    parts, bounds := [], [0];
    ghost var copies := b => Repeat(b, tablesPerShard);
    for s := 0 to nums
      invariant LaidOut(parts, bounds, table, blocks, nums)
      invariant bounds[|parts|] == if s == nums then slots else s * slotsPerShard
      invariant BackendsOf(parts) == FlatMap(copies, backends[..s])
    {
      NextShard(s, nums, slots, slotsPerShard);
      var step := s * slotsPerShard;
      var end := if s == nums - 1 then slots else step + slotsPerShard;
      assert backends[..s + 1][..s] == backends[..s];
      parts, bounds := LayShard(parts, bounds, table, backends[s], step, tablesPerShard, blocks, end, nums);
    }
    assert backends[..nums] == backends;
  }
}
