/** The preprocessing kernel: partitions and de-duplicates feature ids over shards. */
module EmbeddingKernels {
  import opened FeatureIds
  import opened SlotPlanner
  import opened Partition

  /** What the preprocessing kernel hands to one shard. */
  datatype Shard = Shard(instanceIds: seq<int>, fids: seq<int>, uniqueCount: seq<int>, fidToUnique: seq<int>,
                         uniqueHash: seq<seq<int>>)

  datatype Outcome = InvalidArgument | Shards(shards: seq<Shard>)

  /** The slot lists and attributes shared by the kernels. */
  datatype Kernel = Kernel(config: SlotConfig, useFidV2: bool, numShards: nat) {

    /** The lists describe slots that fit their tables; absent slots have table -1 and size 0. */
    ghost predicate Usable(): (r: bool)
      ensures r ==> numShards > 0 && config.Shaped(MaxSlot(useFidV2))
    {
      numShards > 0 && config.Shaped(MaxSlot(useFidV2)) && forall s :: 0 <= s < MaxSlot(useFidV2) ==> SlotUsable(s)
    }

    ghost predicate SlotUsable(s: int)
      requires 0 <= s < MaxSlot(useFidV2) && config.Shaped(MaxSlot(useFidV2))
    {
           && config.slotWeightIndex[s] < config.numGroups
           && (config.slotWeightIndex[s] < 0 <==> config.slotSize[s] == 0)
           && (config.slotWeightIndex[s] >= 0 ==>
                 && 0 < config.slotHashSize[s] && 0 <= config.slotWeightOffset[s]
                 && config.slotWeightOffset[s] + config.slotHashSize[s]
                      <= config.weightHashSizes[config.slotWeightIndex[s]]
                 && 0 < config.slotSize[s] <= config.weightSizes[config.slotWeightIndex[s]]
                 && 0 <= config.slotOutputOffset[s]
                 && config.slotOutputOffset[s] + config.slotSize[s] <= config.outputSize)
    }

    /** The id's slot indexes the slot lists. */
    predicate Known(fid: int) {
      0 <= GetSlot(fid, useFidV2) < MaxSlot(useFidV2)
    }

    function Weight(fid: int): int
      requires Known(fid) && config.Shaped(MaxSlot(useFidV2))
    {
      config.slotWeightIndex[GetSlot(fid, useFidV2)]
    }

    /** The id belongs to a configured slot. */
    ghost predicate Configured(fid: int): (r: bool)
      ensures r ==> Usable() && Known(fid) && 0 <= Weight(fid) < config.numGroups
    {
      Usable() && Known(fid) && SlotUsable(GetSlot(fid, useFidV2)) && Weight(fid) >= 0
    }

    /** Row of the undivided table. */
    function Row(fid: int): (r: int)
      requires Configured(fid)
      ensures 0 <= r < config.weightHashSizes[Weight(fid)]
    {
      var s := GetSlot(fid, useFidV2);
      config.slotWeightOffset[s] + HashFid(fid, config.slotHashSize[s], useFidV2)
    }

    /** Shard of an id and its row there: the 'mod' partition strategy. */
    function ShardOf(fid: int): (d: int)
      requires Configured(fid)
      ensures 0 <= d < numShards
    {
      Row(fid) % numShards
    }

    function ShardRow(fid: int): int
      requires Configured(fid)
    {
      Row(fid) / numShards
    }
  }

  // ---------------------------------------------------------------- shards of a table

  /** `_sharded_size`. */
  function ShardedSize(total: nat, shard: nat, numShards: nat): nat
    requires numShards > 0
  {
    total / numShards + if total % numShards > shard then 1 else 0
  }

  /** Row `v` lies in the table exactly when row `v / n` lies in shard `v % n`; so (v % n, v / n) maps the table
      one to one onto its shards. */
  lemma ShardsTileTable(total: nat, n: nat, d: nat, r: nat)
    requires d < n
    ensures (r * n + d) % n == d && (r * n + d) / n == r
    ensures r < ShardedSize(total, d, n) <==> r * n + d < total
  {
    Unpack(d, r, n);
    var q, m := total / n, total % n;
    assert total == q * n + m;
    if r < q {
      AtLeastOnce(q, r, n);
    } else if r > q {
      AtLeastOnce(r, q, n);
    }
  }

  // ---------------------------------------------------------------- what the planner hands over

  /** The planner's layout is usable by the kernels, with any positive number of shards. */
  lemma LayoutIsUsable(slots: seq<Slot>, useFidV2: bool, c: SlotConfig, numShards: nat)
    requires WellFormed(slots, MaxSlot(useFidV2)) && Layout(slots, MaxSlot(useFidV2), c) && numShards > 0
    ensures Kernel(c, useFidV2, numShards).Usable()
  {
    var k := Kernel(c, useFidV2, numShards);
    forall s | 0 <= s < MaxSlot(useFidV2) ensures k.SlotUsable(s) {
      if i :| 0 <= i < |slots| && slots[i].id == s {
        assert slots[i] in slots && c.Fits(slots[i]);
      }
    }
  }

  /** The slot an id of a configured slot belongs to. */
  lemma SlotOf(slots: seq<Slot>, k: Kernel, fid: int) returns (x: Slot)
    requires WellFormed(slots, MaxSlot(k.useFidV2)) && Layout(slots, MaxSlot(k.useFidV2), k.config)
    requires k.Configured(fid)
    ensures x in slots && x.id == GetSlot(fid, k.useFidV2) && k.config.Fits(x)
    ensures k.config.OwnsRow(x, k.Weight(fid), k.Row(fid))
  {
    var i :| 0 <= i < |slots| && slots[i].id == GetSlot(fid, k.useFidV2);
    x := slots[i];
    assert x in slots && k.config.Fits(x);
  }

  /** Under the planner's layout, ids of different slots never share a row of a table; ids of one slot do exactly when
      their hashes collide. */
  lemma RowsCollideWithinSlots(slots: seq<Slot>, k: Kernel, f: int, g: int)
    requires WellFormed(slots, MaxSlot(k.useFidV2)) && Layout(slots, MaxSlot(k.useFidV2), k.config)
    requires k.Configured(f) && k.Configured(g)
    ensures (k.Weight(f) == k.Weight(g) && k.Row(f) == k.Row(g)) <==>
              && GetSlot(f, k.useFidV2) == GetSlot(g, k.useFidV2)
              && HashFid(f, k.config.slotHashSize[GetSlot(f, k.useFidV2)], k.useFidV2)
                   == HashFid(g, k.config.slotHashSize[GetSlot(f, k.useFidV2)], k.useFidV2)
  {
    var x := SlotOf(slots, k, f);
    var y := SlotOf(slots, k, g);
    if k.Weight(f) == k.Weight(g) && k.Row(f) == k.Row(g) {
      assert k.config.OwnsRow(x, k.Weight(f), k.Row(f)) && k.config.OwnsRow(y, k.Weight(f), k.Row(f));
    }
  }

  /** ... and ids of different slots never write to the same output column. */
  lemma ColumnsAreSeparate(slots: seq<Slot>, k: Kernel, f: int, g: int, c: int)
    requires WellFormed(slots, MaxSlot(k.useFidV2)) && Layout(slots, MaxSlot(k.useFidV2), k.config)
    requires k.Configured(f) && k.Configured(g)
    requires var s := GetSlot(f, k.useFidV2);
             k.config.slotOutputOffset[s] <= c < k.config.slotOutputOffset[s] + k.config.slotSize[s]
    requires var s := GetSlot(g, k.useFidV2);
             k.config.slotOutputOffset[s] <= c < k.config.slotOutputOffset[s] + k.config.slotSize[s]
    ensures GetSlot(f, k.useFidV2) == GetSlot(g, k.useFidV2)
  {
    var x := SlotOf(slots, k, f);
    var y := SlotOf(slots, k, g);
    assert k.config.OwnsColumn(x, c) && k.config.OwnsColumn(y, c);
  }

  /** Every 64-bit id of the first format, and every non-negative one of the second, indexes the slot lists. */
  lemma IdsAreKnown(k: Kernel, fid: int)
    requires -TWO_63 <= fid < TWO_63 && (k.useFidV2 ==> 0 <= fid)
    ensures k.Known(ToUint64(fid))
  {
  }

  // ---------------------------------------------------------------- preprocessing

  ghost function ShardFn(k: Kernel): int -> int {
    fid => if k.Configured(fid) then k.ShardOf(fid) else -1
  }

  ghost function WeightFn(k: Kernel): int -> int {
    fid => if k.Configured(fid) then k.Weight(fid) else -1
  }

  ghost predicate AllConfigured(k: Kernel, es: seq<Entry>) {
    forall e :: e in es ==> k.Configured(e.fid) && 0 <= e.fid < TWO_64
  }

  /** The ids the kernel is given: one instance each, 64 bits wide, indexing the slot lists. */
  ghost predicate Batch(k: Kernel, instanceIds: seq<int>, fids: seq<int>) {
    && k.Usable() && |instanceIds| == |fids|
    && forall i :: 0 <= i < |fids| ==> -TWO_63 <= fids[i] < TWO_63 && k.Known(ToUint64(fids[i]))
  }

  /** The entries of configured slots, in input order. */
  ghost function EntriesOf(k: Kernel, instanceIds: seq<int>, fids: seq<int>): (r: seq<Entry>)
    requires Batch(k, instanceIds, fids)
    ensures AllConfigured(k, r)
  {
    if fids == [] then []
    else
      var n := |fids| - 1;
      var fid := ToUint64(fids[n]);
      EntriesOf(k, instanceIds[..n], fids[..n])
        + if k.Weight(fid) < 0 then []
          else (assert k.SlotUsable(GetSlot(fid, k.useFidV2)); [Entry(fid, instanceIds[n])])
  }

  /** First loop: drop ids of absent slots and count the rest per shard. */
  method Collect(k: Kernel, instanceIds: seq<int>, fids: seq<int>) returns (entries: seq<Entry>, numFids: array<int>)
    requires Batch(k, instanceIds, fids)
    ensures entries == EntriesOf(k, instanceIds, fids)
    ensures fresh(numFids) && numFids.Length == k.numShards
    ensures forall d :: 0 <= d < k.numShards ==> numFids[d] == |ShardEntries(entries, ShardFn(k), d)|
  {
    entries := [];
    numFids := new int[k.numShards](_ => 0);
    for i := 0 to |fids|
      invariant entries == EntriesOf(k, instanceIds[..i], fids[..i])
      invariant forall d :: 0 <= d < k.numShards ==> numFids[d] == |ShardEntries(entries, ShardFn(k), d)|
    {
      assert fids[..i + 1][..i] == fids[..i] && instanceIds[..i + 1][..i] == instanceIds[..i];
      var fid := ToUint64(fids[i]);
      if k.Weight(fid) >= 0 {
        assert k.SlotUsable(GetSlot(fid, k.useFidV2));
        ghost var before := entries;
        entries := entries + [Entry(fid, instanceIds[i])];
        assert entries[..|entries| - 1] == before;
        var d := k.ShardOf(fid);
        numFids[d] := numFids[d] + 1;
      }
    }
    assert fids[..|fids|] == fids && instanceIds[..|fids|] == instanceIds;
  }

  function Total(a: seq<Device>): int {
    if a == [] then 0 else Total(a[..|a| - 1]) + a[|a| - 1].next
  }

  lemma {:induction false} TotalStep(a: seq<Device>, i: nat, dev: Device)
    requires i < |a| && dev.next == a[i].next + 1
    ensures Total(a[i := dev]) == Total(a) + 1
  {
    var b := a[i := dev];
    if i < |a| - 1 {
      TotalStep(a[..|a| - 1], i, dev);
      assert b[..|a| - 1] == a[..|a| - 1][i := dev];
    } else {
      assert b[..|a| - 1] == a[..|a| - 1];
    }
  }

  lemma {:induction false} TotalZero(a: seq<Device>)
    requires forall i :: 0 <= i < |a| ==> a[i].next == 0
    ensures Total(a) == 0
  {
    if a != [] {
      TotalZero(a[..|a| - 1]);
    }
  }

  ghost predicate DevicesAt(k: Kernel, sorted: seq<Entry>, i: nat, devices: seq<Device>)
    requires i <= |sorted|
  {
    && |devices| == k.numShards && Total(devices) == i
    && forall d :: 0 <= d < k.numShards ==>
         HandedOut(sorted, ShardFn(k), WeightFn(k), k.config.numGroups, i, d, devices[d])
  }

  lemma DevicesStep(k: Kernel, sorted: seq<Entry>, i: nat, devices: seq<Device>)
    requires SortedById(sorted) && i < |sorted| && DevicesAt(k, sorted, i, devices)
    requires k.Configured(sorted[i].fid)
    ensures var own, w := k.ShardOf(sorted[i].fid), k.Weight(sorted[i].fid);
            && devices[own].HasRoom(w)
            && DevicesAt(k, sorted, i + 1, devices[own := devices[own].Store(sorted[i], w,
                                                     i == 0 || sorted[i].fid != sorted[i - 1].fid)])
  {
    var own, w := k.ShardOf(sorted[i].fid), k.Weight(sorted[i].fid);
    var isNew := i == 0 || sorted[i].fid != sorted[i - 1].fid;
    OwnShardStep(sorted, ShardFn(k), WeightFn(k), k.config.numGroups, i, own, devices[own]);
    var after := devices[own := devices[own].Store(sorted[i], w, isNew)];
    hide HandedOut, SortedById;
    TotalStep(devices, own, after[own]);
    forall d | 0 <= d < k.numShards
      ensures HandedOut(sorted, ShardFn(k), WeightFn(k), k.config.numGroups, i + 1, d, after[d])
    {
      if d != own {
        OtherShardStep(sorted, ShardFn(k), WeightFn(k), k.config.numGroups, i, d, devices[d]);
      }
    }
  }

  lemma DevicesStart(k: Kernel, sorted: seq<Entry>, devices: seq<Device>)
    requires |devices| == k.numShards
    requires forall d :: 0 <= d < k.numShards ==>
               && devices[d].next == 0 && devices[d].unique == seq(k.config.numGroups, _ => 0)
               && |devices[d].instances| == |devices[d].ids| == |ShardEntries(sorted, ShardFn(k), d)|
    ensures DevicesAt(k, sorted, 0, devices)
  {
    TotalZero(devices);
    forall d | 0 <= d < k.numShards
      ensures HandedOut(sorted, ShardFn(k), WeightFn(k), k.config.numGroups, 0, d, devices[d])
    {
      assert ShardEntries(sorted[..0], ShardFn(k), d) == [];
    }
  }

  lemma EntryIsConfigured(k: Kernel, es: seq<Entry>, i: nat)
    requires AllConfigured(k, es) && i < |es|
    ensures k.Configured(es[i].fid)
  {
    assert es[i] in es;
  }

  /** The output tensors, each as long as its shard's count. */
  method Allocate(k: Kernel, ghost sorted: seq<Entry>, numFids: array<int>) returns (devices: seq<Device>)
    requires numFids.Length == k.numShards
    requires forall d :: 0 <= d < k.numShards ==> numFids[d] == |ShardEntries(sorted, ShardFn(k), d)|
    ensures DevicesAt(k, sorted, 0, devices)
  {
    var none := seq(k.config.numGroups, _ => 0);
    devices := [];
    for d := 0 to k.numShards
      invariant |devices| == d && forall d' :: 0 <= d' < d ==>
                  && devices[d'].next == 0 && devices[d'].unique == none
                  && |devices[d'].instances| == |devices[d'].ids| == |ShardEntries(sorted, ShardFn(k), d')|
    {
      devices := devices + [Device(0, seq(numFids[d], _ => 0), seq(numFids[d], _ => 0), none)];
    }
    DevicesStart(k, sorted, devices);
  }

  /** Second loop: hand the sorted ids out to their shards, counting distinct ids per shard and table by
      comparing each id with its predecessor in the global order.  The consistency check on the positions
      always passes. */
  method HandOut(k: Kernel, sorted: seq<Entry>, numFids: array<int>) returns (ok: bool, devices: seq<Device>)
    requires AllConfigured(k, sorted) && SortedById(sorted)
    requires numFids.Length == k.numShards
    requires forall d :: 0 <= d < k.numShards ==> numFids[d] == |ShardEntries(sorted, ShardFn(k), d)|
    ensures ok && |devices| == k.numShards
    ensures forall d :: 0 <= d < k.numShards ==>
              && devices[d].instances == Instances(ShardEntries(sorted, ShardFn(k), d))
              && devices[d].ids == Ids(ShardEntries(sorted, ShardFn(k), d))
              && Counted(ShardEntries(sorted, ShardFn(k), d), WeightFn(k), k.config.numGroups, devices[d].unique)
  {
    devices := Allocate(k, sorted, numFids);
    hide DevicesAt, SortedById, ShardEntries, Instances, Ids, Counted, Kernel.Usable, Kernel.Configured, Total,
         Device.Store, Kernel.Weight, Kernel.Known, AllConfigured;
    var lastFid := 0;
    for i := 0 to |sorted|
      invariant i > 0 ==> lastFid == sorted[i - 1].fid
      invariant DevicesAt(k, sorted, i, devices)
    {
      var fid := sorted[i].fid;
      EntryIsConfigured(k, sorted, i);
      DevicesStep(k, sorted, i, devices);
      var w := k.Weight(fid);
      var d := k.ShardOf(fid);
      devices := devices[d := devices[d].Store(sorted[i], w, i == 0 || fid != lastFid)];
      lastFid := fid;
    }
    DevicesEnd(k, sorted, devices);
    ok := Total(devices) == |sorted|;
  }

  lemma DevicesEnd(k: Kernel, sorted: seq<Entry>, devices: seq<Device>)
    requires DevicesAt(k, sorted, |sorted|, devices)
    ensures Total(devices) == |sorted| && |devices| == k.numShards
    ensures forall d :: 0 <= d < k.numShards ==>
              && devices[d].instances == Instances(ShardEntries(sorted, ShardFn(k), d))
              && devices[d].ids == Ids(ShardEntries(sorted, ShardFn(k), d))
              && Counted(ShardEntries(sorted, ShardFn(k), d), WeightFn(k), k.config.numGroups, devices[d].unique)
  {
    forall d | 0 <= d < k.numShards
      ensures && devices[d].instances == Instances(ShardEntries(sorted, ShardFn(k), d))
              && devices[d].ids == Ids(ShardEntries(sorted, ShardFn(k), d))
              && Counted(ShardEntries(sorted, ShardFn(k), d), WeightFn(k), k.config.numGroups, devices[d].unique)
    {
      HandedOutAll(sorted, ShardFn(k), WeightFn(k), k.config.numGroups, d, devices[d]);
    }
  }

  ghost function RowFn(k: Kernel): int -> int {
    fid => if k.Configured(fid) then k.ShardRow(fid) else -1
  }

  lemma ConfiguredInTables(k: Kernel, es: seq<Entry>)
    requires AllConfigured(k, es)
    ensures InTables(es, WeightFn(k), k.config.numGroups)
  {
    forall i | 0 <= i < |es| ensures 0 <= WeightFn(k)(es[i].fid) < k.config.numGroups {
      assert es[i] in es;
    }
  }

  /** What the kernel promises about one shard's entries. */
  ghost predicate ShardOk(k: Kernel, es: seq<Entry>, sh: Shard) {
    && AllConfigured(k, es) && InTables(es, WeightFn(k), k.config.numGroups)
    && sh.fids == Ids(es) && sh.instanceIds == Instances(es)
    && Counted(es, WeightFn(k), k.config.numGroups, sh.uniqueCount)
    && Indexed(es, WeightFn(k), RowFn(k), k.config.numGroups, sh.fidToUnique, sh.uniqueHash)
  }

  /** Position `j` of the shard, read back from its signed id. */
  lemma EntryOf(k: Kernel, es: seq<Entry>, j: nat)
    requires AllConfigured(k, es) && j < |es|
    ensures |Ids(es)| == |es| && ToUint64(Ids(es)[j]) == es[j].fid && k.Configured(es[j].fid)
    ensures k.Known(es[j].fid) && k.config.Shaped(MaxSlot(k.useFidV2))
    ensures WeightFn(k)(es[j].fid) == k.Weight(es[j].fid) && 0 <= k.Weight(es[j].fid) < k.config.numGroups
    ensures RowFn(k)(es[j].fid) == k.ShardRow(es[j].fid)
    ensures j > 0 ==> (Ids(es)[j] == Ids(es)[j - 1] <==> es[j].fid == es[j - 1].fid)
  {
    assert es[j] in es && (j > 0 ==> es[j - 1] in es);
  }

  /** One tensor per table, as long as its number of distinct ids. */
  method AllocateRows(uniqueCount: seq<int>) returns (rows: seq<seq<int>>)
    requires forall w :: 0 <= w < |uniqueCount| ==> 0 <= uniqueCount[w]
    ensures |rows| == |uniqueCount|
    ensures forall w :: 0 <= w < |uniqueCount| ==> |rows[w]| == uniqueCount[w]
  {
    rows := [];
    for w := 0 to |uniqueCount|
      invariant |rows| == w && forall v :: 0 <= v < w ==> |rows[v]| == uniqueCount[v]
    {
      rows := rows + [seq(uniqueCount[w], _ => 0)];
    }
  }

  /** One iteration of the third loop keeps the positions named so far right. */
  lemma IndexStep(k: Kernel, es: seq<Entry>, j: nat, counts: seq<int>, slices: seq<int>, rows: seq<seq<int>>)
    requires AllConfigured(k, es) && SortedById(es) && j < |es| && InTables(es, WeightFn(k), k.config.numGroups)
    requires IndexedTo(es, WeightFn(k), RowFn(k), k.config.numGroups, j, counts, slices, rows)
    ensures Nameable(k, es[j].fid, j, counts, slices, rows, j == 0 || es[j].fid != es[j - 1].fid)
    ensures var n := Name(k, es[j].fid, j, counts, slices, rows, j == 0 || es[j].fid != es[j - 1].fid);
            IndexedTo(es, WeightFn(k), RowFn(k), k.config.numGroups, j + 1, n.0, n.1, n.2)
  {
    EntryOf(k, es, j);
    hide SortedById, AllConfigured, InTables, Distinct, WeightFn, RowFn, Kernel.Usable;
    if j == 0 || es[j].fid != es[j - 1].fid {
      IndexNew(es, WeightFn(k), RowFn(k), k.config.numGroups, j, counts, slices, rows);
    } else {
      IndexRepeat(es, WeightFn(k), RowFn(k), k.config.numGroups, j, counts, slices, rows);
    }
  }

  ghost predicate Nameable(k: Kernel, fid: int, j: nat, counts: seq<int>, slices: seq<int>, rows: seq<seq<int>>,
                           isNew: bool) {
    && k.Configured(fid) && |counts| == |rows| == k.config.numGroups && j < |slices|
    && (isNew ==> 0 <= counts[k.Weight(fid)] + 1 < |rows[k.Weight(fid)]|)
  }

  ghost function Name(k: Kernel, fid: int, j: nat, counts: seq<int>, slices: seq<int>, rows: seq<seq<int>>, isNew: bool)
    : (seq<int>, seq<int>, seq<seq<int>>)
    requires Nameable(k, fid, j, counts, slices, rows, isNew)
  {
    var w := k.Weight(fid);
    if isNew then
      (counts[w := counts[w] + 1], slices[j := counts[w] + 1], rows[w := rows[w][counts[w] + 1 := k.ShardRow(fid)]])
    else (counts, slices[j := counts[w]], rows)
  }

  method NoSlices(k: Kernel, ghost es: seq<Entry>, numFids: nat, uniqueCount: seq<int>)
    returns (counts: seq<int>, fidToUnique: seq<int>, uniqueHash: seq<seq<int>>)
    requires AllConfigured(k, es) && numFids == |es|
    requires Counted(es, WeightFn(k), k.config.numGroups, uniqueCount)
    ensures InTables(es, WeightFn(k), k.config.numGroups)
    ensures IndexedTo(es, WeightFn(k), RowFn(k), k.config.numGroups, 0, counts, fidToUnique, uniqueHash)
  {
    counts := seq(k.config.numGroups, _ => -1);
    uniqueHash := AllocateRows(uniqueCount);
    fidToUnique := seq(numFids, _ => 0);
    ConfiguredInTables(k, es);
    IndexStart(es, WeightFn(k), RowFn(k), k.config.numGroups, counts, fidToUnique, uniqueHash);
  }

  /** Third loop, for one shard: name a slice for every position. */
  method NameSlices(k: Kernel, ghost es: seq<Entry>, fids: seq<int>, uniqueCount: seq<int>)
    returns (counts: seq<int>, fidToUnique: seq<int>, uniqueHash: seq<seq<int>>)
    requires AllConfigured(k, es) && SortedById(es) && fids == Ids(es)
    requires Counted(es, WeightFn(k), k.config.numGroups, uniqueCount)
    ensures InTables(es, WeightFn(k), k.config.numGroups)
    ensures IndexedTo(es, WeightFn(k), RowFn(k), k.config.numGroups, |es|, counts, fidToUnique, uniqueHash)
  {
    IdsLength(es);
    counts, fidToUnique, uniqueHash := NoSlices(k, es, |fids|, uniqueCount);
    hide *;
    var lastFid := 0;
    for j := 0 to |fids|
      invariant j > 0 ==> lastFid == fids[j - 1]
      invariant IndexedTo(es, WeightFn(k), RowFn(k), k.config.numGroups, j, counts, fidToUnique, uniqueHash)
    {
      counts, fidToUnique, uniqueHash := NameNext(k, es, fids, j, lastFid, counts, fidToUnique, uniqueHash);
      lastFid := fids[j];
    }
  }

  /** The body of that loop. */
  method NameNext(k: Kernel, ghost es: seq<Entry>, fids: seq<int>, j: nat, lastFid: int, counts: seq<int>,
                  slices: seq<int>, rows: seq<seq<int>>)
    returns (counts': seq<int>, slices': seq<int>, rows': seq<seq<int>>)
    requires AllConfigured(k, es) && SortedById(es) && InTables(es, WeightFn(k), k.config.numGroups)
    requires fids == Ids(es) && j < |fids| == |es| && (j > 0 ==> lastFid == fids[j - 1])
    requires IndexedTo(es, WeightFn(k), RowFn(k), k.config.numGroups, j, counts, slices, rows)
    ensures IndexedTo(es, WeightFn(k), RowFn(k), k.config.numGroups, j + 1, counts', slices', rows')
  {
    hide IndexedTo, SortedById, InTables, Ids, AllConfigured, WeightFn, RowFn, ToUint64, Kernel.Usable,
         Kernel.Configured, Kernel.ShardRow, Kernel.Weight, Kernel.Known;
    EntryOf(k, es, j);
    IndexStep(k, es, j, counts, slices, rows);
    counts', rows' := counts, rows;
    var fid := ToUint64(fids[j]);
    var w := k.Weight(fid);
    if j == 0 || fids[j] != lastFid {
      counts' := counts[w := counts[w] + 1];
      rows' := rows[w := rows[w][counts'[w] := k.ShardRow(fid)]];
    }
    slices' := slices[j := counts'[w]];
  }

  /** Third loop and its closing check, which always passes. */
  method IndexShard(k: Kernel, ghost es: seq<Entry>, instanceIds: seq<int>, fids: seq<int>, uniqueCount: seq<int>)
    returns (ok: bool, sh: Shard)
    requires AllConfigured(k, es) && SortedById(es)
    requires fids == Ids(es) && instanceIds == Instances(es)
    requires Counted(es, WeightFn(k), k.config.numGroups, uniqueCount)
    ensures ok && ShardOk(k, es, sh)
  {
    var counts, fidToUnique, uniqueHash := NameSlices(k, es, fids, uniqueCount);
    hide SortedById, Counted, InTables, AllConfigured, IndexedTo, Indexed;
    IndexEnd(es, WeightFn(k), RowFn(k), k.config.numGroups, counts, fidToUnique, uniqueHash);
    ok := CountsAgree(counts, uniqueCount, es, WeightFn(k));
    sh := Shard(instanceIds, fids, uniqueCount, fidToUnique, uniqueHash);
  }

  lemma IdsLength(es: seq<Entry>)
    ensures |Ids(es)| == |es|
  {
  }

  /** The closing check: `counts[w]` is the last slice of table `w`. */
  function CountsAgree(counts: seq<int>, uniqueCount: seq<int>, ghost es: seq<Entry>, ghost weight: int -> int)
    : (ok: bool)
    requires Counted(es, weight, |counts|, uniqueCount)
    requires forall w :: 0 <= w < |counts| ==> counts[w] == |Distinct(es, weight, w)| - 1
    ensures ok
  {
    forall w :: 0 <= w < |counts| ==> counts[w] == uniqueCount[w] - 1
  }

  /** The preprocessing kernel.  None of its consistency checks can fail: it never reports an invalid argument. */
  method Preprocess(k: Kernel, instanceIds: seq<int>, fids: seq<int>) returns (out: Outcome, ghost sorted: seq<Entry>)
    requires Batch(k, instanceIds, fids)
    ensures SortedById(sorted) && multiset(sorted) == multiset(EntriesOf(k, instanceIds, fids))
    ensures out.Shards? && |out.shards| == k.numShards
    ensures forall d :: 0 <= d < k.numShards ==> ShardOk(k, ShardEntries(sorted, ShardFn(k), d), out.shards[d])
  {
    hide SortedById, ShardEntries, Kernel.Usable, ShardOk, EntriesOf, AllConfigured, ShardFn;
    var entries, numFids := Collect(k, instanceIds, fids);
    var sortedFids := SortEntries(entries);
    sorted := sortedFids;
    SortedConfigured(k, entries, sorted);
    var ok, devices := HandOut(k, sortedFids, numFids);
    if !ok {
      return InvalidArgument, sorted;
    }
    var shards: seq<Shard> := [];
    for d := 0 to k.numShards
      invariant |shards| == d
      invariant forall d' :: 0 <= d' < d ==> ShardOk(k, ShardEntries(sorted, ShardFn(k), d'), shards[d'])
    {
      ShardConfigured(k, sorted, d);
      var fine, sh := IndexShard(k, ShardEntries(sorted, ShardFn(k), d), devices[d].instances, devices[d].ids,
                                 devices[d].unique);
      if !fine {
        return InvalidArgument, sorted;
      }
      shards := shards + [sh];
    }
    out := Shards(shards);
  }

  lemma SortedConfigured(k: Kernel, entries: seq<Entry>, sorted: seq<Entry>)
    requires AllConfigured(k, entries) && multiset(sorted) == multiset(entries)
    ensures AllConfigured(k, sorted)
    ensures forall d :: |ShardEntries(entries, ShardFn(k), d)| == |ShardEntries(sorted, ShardFn(k), d)|
  {
    forall e | e in sorted ensures k.Configured(e.fid) && 0 <= e.fid < TWO_64 {
      assert e in multiset(entries);
    }
    forall d ensures |ShardEntries(entries, ShardFn(k), d)| == |ShardEntries(sorted, ShardFn(k), d)| {
      ShardCountOfPermutation(entries, sorted, ShardFn(k), d);
    }
  }

  lemma ShardConfigured(k: Kernel, sorted: seq<Entry>, d: int)
    requires AllConfigured(k, sorted) && SortedById(sorted)
    ensures AllConfigured(k, ShardEntries(sorted, ShardFn(k), d))
    ensures SortedById(ShardEntries(sorted, ShardFn(k), d))
  {
    ShardIsSorted(sorted, ShardFn(k), d);
  }
}
