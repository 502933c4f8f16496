/** What the sharded lookup and its gradient mean for slots and ids, under the planner's layout. */
module LookupLaws {
  import opened FeatureIds
  import opened Permutations
  import opened SlotPlanner
  import opened Pooling
  import opened Partition
  import opened EmbeddingKernels
  import opened EmbeddingLookup

  // ---------------------------------------------------------------- the columns of a slot

  /** Column `j` of slot `s` for instance `b`: the sum, over the ids of that slot and instance, of their rows. */
  ghost function SlotSum(k: Kernel, instanceIds: seq<int>, ids: seq<int>, w: Weights, b: int, s: int, j: int): real
    requires Batch(k, instanceIds, ids) && 0 <= s < MaxSlot(k.useFidV2) && 0 < k.config.slotHashSize[s]
  {
    if ids == [] then 0.0
    else
      var n, lists := |ids| - 1, k.config;
      var fid := ToUint64(ids[n]);
      SlotSum(k, instanceIds[..n], ids[..n], w, b, s, j)
        + if instanceIds[n] == b && GetSlot(fid, k.useFidV2) == s
          then w(lists.slotWeightIndex[s],
                 lists.slotWeightOffset[s] + HashFid(fid, lists.slotHashSize[s], k.useFidV2), j)
          else 0.0
  }

  /** Under the planner's layout a column belongs to one slot only. */
  lemma ColumnOfSlot(slots: seq<Slot>, k: Kernel, s: int, t: int, c: int)
    requires WellFormed(slots, MaxSlot(k.useFidV2)) && Layout(slots, MaxSlot(k.useFidV2), k.config)
    requires 0 <= s < MaxSlot(k.useFidV2) && 0 <= t < MaxSlot(k.useFidV2)
    requires k.config.slotOutputOffset[s] <= c < k.config.slotOutputOffset[s] + k.config.slotSize[s]
    requires k.config.slotOutputOffset[t] <= c < k.config.slotOutputOffset[t] + k.config.slotSize[t]
    ensures s == t
  {
    var i :| 0 <= i < |slots| && slots[i].id == s;
    var j :| 0 <= j < |slots| && slots[j].id == t;
    assert slots[i] in slots && slots[j] in slots && k.config.Fits(slots[i]) && k.config.Fits(slots[j]);
    assert k.config.OwnsColumn(slots[i], c) && k.config.OwnsColumn(slots[j], c);
  }

  /** The output columns of a slot hold exactly the rows of that slot's ids: all columns of the rows, in order. */
  lemma {:induction false} SlotColumns(slots: seq<Slot>, k: Kernel, instanceIds: seq<int>, ids: seq<int>, w: Weights,
                                       b: int, s: int, j: int)
    requires WellFormed(slots, MaxSlot(k.useFidV2)) && Layout(slots, MaxSlot(k.useFidV2), k.config)
    requires Batch(k, instanceIds, ids) && 0 <= s < MaxSlot(k.useFidV2) && 0 <= j < k.config.slotSize[s]
    ensures 0 < k.config.slotHashSize[s] && 0 <= k.config.slotOutputOffset[s]
    ensures k.config.slotOutputOffset[s] + j < k.config.outputSize
    ensures CellOf(k, instanceIds, ids, w, b, k.config.slotOutputOffset[s] + j)
         == SlotSum(k, instanceIds, ids, w, b, s, j)
  {
    assert k.SlotUsable(s);
    if ids != [] {
      var n := |ids| - 1;
      SlotColumns(slots, k, instanceIds[..n], ids[..n], w, b, s, j);
      PartOfSlot(slots, k, instanceIds[n], ids[n], w, b, s, j);
      hide Layout, Kernel.Usable, Part;
    }
  }

  lemma PartOfSlot(slots: seq<Slot>, k: Kernel, instance: int, id: int, w: Weights, b: int, s: int, j: int)
    requires WellFormed(slots, MaxSlot(k.useFidV2)) && Layout(slots, MaxSlot(k.useFidV2), k.config)
    requires k.Usable() && k.Known(ToUint64(id)) && 0 <= s < MaxSlot(k.useFidV2) && 0 <= j < k.config.slotSize[s]
    requires 0 < k.config.slotHashSize[s]
    ensures Part(k, instance, id, w, b, k.config.slotOutputOffset[s] + j)
         == if instance == b && GetSlot(ToUint64(id), k.useFidV2) == s
            then w(k.config.slotWeightIndex[s],
                   k.config.slotWeightOffset[s] + HashFid(ToUint64(id), k.config.slotHashSize[s], k.useFidV2), j)
            else 0.0
  {
    var t, c := GetSlot(ToUint64(id), k.useFidV2), k.config.slotOutputOffset[s] + j;
    if k.config.slotOutputOffset[t] <= c < k.config.slotOutputOffset[t] + k.config.slotSize[t] {
      ColumnOfSlot(slots, k, s, t, c);
    }
    hide Layout, WellFormed;
  }

  // ---------------------------------------------------------------- which ids are kept

  /** Every position of a configured slot is kept, with its id and instance, and nothing else is. */
  lemma {:induction false} KeptEntries(k: Kernel, instanceIds: seq<int>, ids: seq<int>, e: Entry)
    requires Batch(k, instanceIds, ids)
    ensures e in EntriesOf(k, instanceIds, ids) <==>
              exists p :: Keeps(k, instanceIds, ids, p, e)
  {
    if ids != [] {
      var n := |ids| - 1;
      KeptEntries(k, instanceIds[..n], ids[..n], e);
      if p :| Keeps(k, instanceIds[..n], ids[..n], p, e) {
        assert Keeps(k, instanceIds, ids, p, e);
      }
      if p :| Keeps(k, instanceIds, ids, p, e) {
        assert p < n ==> Keeps(k, instanceIds[..n], ids[..n], p, e);
      }
      if e in EntriesOf(k, instanceIds, ids) && e !in EntriesOf(k, instanceIds[..n], ids[..n]) {
        assert Keeps(k, instanceIds, ids, n, e);
      }
    }
  }

  /** Position `p` holds the entry's id and instance, and the id's slot has a table. */
  ghost predicate Keeps(k: Kernel, instanceIds: seq<int>, ids: seq<int>, p: int, e: Entry)
    requires Batch(k, instanceIds, ids)
  {
    && 0 <= p < |ids| && e.fid == ToUint64(ids[p]) && e.instance == instanceIds[p]
    && k.config.slotWeightIndex[GetSlot(ToUint64(ids[p]), k.useFidV2)] >= 0
  }

  // ---------------------------------------------------------------- the gradient of an id

  /** Column `j` of the gradient of id `fid`: the sum of its occurrences' output gradients. */
  ghost function IdGradient(k: Kernel, instanceIds: seq<int>, ids: seq<int>, fid: int, g: Grads, j: int): real
    requires Batch(k, instanceIds, ids) && k.Known(fid)
  {
    if ids == [] then 0.0
    else
      var n := |ids| - 1;
      IdGradient(k, instanceIds[..n], ids[..n], fid, g, j)
        + if ToUint64(ids[n]) == fid
          then g(instanceIds[n], k.config.slotOutputOffset[GetSlot(fid, k.useFidV2)] + j) else 0.0
  }

  /** The same over entries. */
  ghost function EntrySum(es: seq<Entry>, fid: int, h: int -> real): real {
    if es == [] then 0.0
    else EntrySum(es[..|es| - 1], fid, h) + if es[|es| - 1].fid == fid then h(es[|es| - 1].instance) else 0.0
  }

  lemma EntrySumAppend(es: seq<Entry>, e: Entry, fid: int, h: int -> real)
    ensures EntrySum(es + [e], fid, h) == EntrySum(es, fid, h) + if e.fid == fid then h(e.instance) else 0.0
  {
    assert (es + [e])[..|es|] == es;
  }

  lemma {:induction false} EntrySumWithout(es: seq<Entry>, i: nat, fid: int, h: int -> real)
    requires i < |es|
    ensures EntrySum(es, fid, h)
         == EntrySum(es[..i] + es[i + 1..], fid, h) + if es[i].fid == fid then h(es[i].instance) else 0.0
  {
    var front, last := es[..|es| - 1], es[|es| - 1];
    var without := es[..i] + es[i + 1..];
    if i == |front| {
      assert without == front;
    } else {
      var less := front[..i] + front[i + 1..];
      assert without == less + [last] && front[i] == es[i];
      EntrySumWithout(front, i, fid, h);
      EntrySumAppend(less, last, fid, h);
    }
  }

  lemma {:induction false} EntrySumOfPermutation(xs: seq<Entry>, ys: seq<Entry>, fid: int, h: int -> real)
    requires multiset(xs) == multiset(ys)
    ensures EntrySum(xs, fid, h) == EntrySum(ys, fid, h)
  {
    SameElements(xs, ys);
    if xs != [] {
      var i := MatchLast(xs, ys);
      EntrySumWithout(ys, i, fid, h);
      EntrySumOfPermutation(xs[..|xs| - 1], ys[..i] + ys[i + 1..], fid, h);
    }
  }

  lemma NoEntries(shard: int -> int, d: int, fid: int, h: int -> real)
    ensures EntrySum([], fid, h) == 0.0 && ShardEntries([], shard, d) == []
  {
  }

  /** All occurrences of an id are in its shard. */
  lemma {:induction false} EntrySumOfShard(es: seq<Entry>, shard: int -> int, fid: int, h: int -> real)
    ensures EntrySum(ShardEntries(es, shard, shard(fid)), fid, h) == EntrySum(es, fid, h)
  {
    hide *;
    if es == [] {
      NoEntries(shard, shard(fid), fid, h);
    } else {
      var front, last := es[..|es| - 1], es[|es| - 1];
      var mine := ShardEntries(front, shard, shard(fid));
      assert es == front + [last] && mine + [] == mine;
      EntrySumOfShard(front, shard, fid, h);
      ShardAppend(front, last, shard, shard(fid));
      EntrySumAppend(front, last, fid, h);
      EntrySumAppend(mine, last, fid, h);
    }
  }

  ghost function GradAt(k: Kernel, fid: int, g: Grads, j: int): int -> real
    requires k.Known(fid) && k.config.Shaped(MaxSlot(k.useFidV2))
  {
    instance => g(instance, k.config.slotOutputOffset[GetSlot(fid, k.useFidV2)] + j)
  }

  lemma {:induction false} EntrySumOfBatch(k: Kernel, instanceIds: seq<int>, ids: seq<int>, fid: int, g: Grads, j: int)
    requires Batch(k, instanceIds, ids) && k.Known(fid) && k.Weight(fid) >= 0
    ensures EntrySum(EntriesOf(k, instanceIds, ids), fid, GradAt(k, fid, g, j))
         == IdGradient(k, instanceIds, ids, fid, g, j)
  {
    if ids != [] {
      var n := |ids| - 1;
      hide Kernel.Usable, EntrySum, AllConfigured;
      EntrySumOfBatch(k, instanceIds[..n], ids[..n], fid, g, j);
      OneMoreId(k, EntriesOf(k, instanceIds[..n], ids[..n]), instanceIds[n], ids[n], fid, g, j);
    }
  }

  lemma OneMoreId(k: Kernel, es: seq<Entry>, instance: int, id: int, fid: int, g: Grads, j: int)
    requires k.Usable() && k.Known(ToUint64(id)) && k.Known(fid) && k.Weight(fid) >= 0
    ensures EntrySum(es + if k.Weight(ToUint64(id)) < 0 then [] else [Entry(ToUint64(id), instance)], fid,
                     GradAt(k, fid, g, j))
         == EntrySum(es, fid, GradAt(k, fid, g, j))
            + if ToUint64(id) == fid then g(instance, k.config.slotOutputOffset[GetSlot(fid, k.useFidV2)] + j) else 0.0
  {
    hide Kernel.Usable, EntrySum;
    if k.Weight(ToUint64(id)) >= 0 {
      EntrySumAppend(es, Entry(ToUint64(id), instance), fid, GradAt(k, fid, g, j));
    } else {
      assert es + [] == es;
    }
  }

  /** The slice of an id collects the occurrences of that id and nothing else. */
  lemma {:induction false} SliceOfEntries(k: Kernel, es: seq<Entry>, unique: seq<int>, fid: int, g: Grads, u: int,
                                          j: int)
    requires k.Usable() && AllConfigured(k, es) && |unique| == |es| && k.Known(fid)
    requires 0 <= j < k.config.slotSize[GetSlot(fid, k.useFidV2)]
    requires forall i :: 0 <= i < |es| ==> k.Known(es[i].fid)
    requires forall i :: 0 <= i < |es| ==>
               (k.Weight(es[i].fid) == k.Weight(fid) && unique[i] == u <==> es[i].fid == fid)
    ensures Batch(k, Instances(es), Ids(es)) && |Ids(es)| == |es|
    ensures SliceCell(k, Instances(es), Ids(es), unique, g, k.Weight(fid), u, j)
         == EntrySum(es, fid, GradAt(k, fid, g, j))
  {
    EntriesAreBatch(k, es);
    if es != [] {
      var n := |es| - 1;
      var front, last := es[..n], es[n];
      assert AllConfigured(k, front);
      SliceOfEntries(k, front, unique[..n], fid, g, u, j);
      assert Instances(es)[..n] == Instances(front) && Ids(es)[..n] == Ids(front);
      assert ToUint64(Ids(es)[n]) == last.fid && Instances(es)[n] == last.instance;
      hide Kernel.Usable;
    }
  }

  /** The place of an id in its shard, and what is known there. */
  lemma PlaceInShard(k: Kernel, instanceIds: seq<int>, ids: seq<int>, sorted: seq<Entry>, p: nat) returns (i: nat)
    requires Batch(k, instanceIds, ids) && multiset(sorted) == multiset(EntriesOf(k, instanceIds, ids))
    requires p < |ids| && k.config.slotWeightIndex[GetSlot(ToUint64(ids[p]), k.useFidV2)] >= 0
    ensures k.Configured(ToUint64(ids[p]))
    ensures var es := ShardEntries(sorted, ShardFn(k), k.ShardOf(ToUint64(ids[p])));
            i < |es| && es[i] == Entry(ToUint64(ids[p]), instanceIds[p])
  {
    var e := Entry(ToUint64(ids[p]), instanceIds[p]);
    assert k.SlotUsable(GetSlot(e.fid, k.useFidV2));
    KeptEntries(k, instanceIds, ids, e);
    assert Keeps(k, instanceIds, ids, p, e);
    SameElements(sorted, EntriesOf(k, instanceIds, ids));
    hide EntriesOf, Kernel.Usable;
    i :| i < |ShardEntries(sorted, ShardFn(k), k.ShardOf(e.fid))|
         && ShardEntries(sorted, ShardFn(k), k.ShardOf(e.fid))[i] == e;
  }

  /** The slice named for a position is shared by the positions of its id and by no others of its table. */
  lemma SliceOfId(k: Kernel, es: seq<Entry>, sh: Shard, i: nat)
    requires k.Usable() && ShardOk(k, es, sh) && SortedById(es) && i < |es|
    ensures |sh.fidToUnique| == |es| && forall j :: 0 <= j < |es| ==> k.Configured(es[j].fid)
    ensures forall j :: 0 <= j < |es| ==>
              ((k.Weight(es[j].fid) == k.Weight(es[i].fid) && sh.fidToUnique[j] == sh.fidToUnique[i])
                 <==> es[j].fid == es[i].fid)
  {
    forall j | 0 <= j < |es|
      ensures k.Configured(es[j].fid) && WeightFn(k)(es[j].fid) == k.Weight(es[j].fid)
    {
      assert es[j] in es;
    }
    forall j | 0 <= j < |es| && j != i && k.Weight(es[j].fid) == k.Weight(es[i].fid)
      ensures sh.fidToUnique[j] == sh.fidToUnique[i] <==> es[j].fid == es[i].fid
    {
      var lo, hi := if i < j then i else j, if i < j then j else i;
      hide Indexed, InTables, SortedById, Counted, Kernel.Usable;
      SlicesAreDistinct(es, WeightFn(k), RowFn(k), k.config.numGroups, sh.fidToUnique, sh.uniqueHash, lo, hi);
    }
  }

  /** One position of a shard: its slice collects the gradient of its id. */
  lemma SliceIsIdGradient(k: Kernel, instanceIds: seq<int>, ids: seq<int>, sorted: seq<Entry>, d: int, sh: Shard,
                          i: nat, g: Grads, j: int)
    requires Batch(k, instanceIds, ids) && SortedById(sorted) && AllConfigured(k, sorted)
    requires multiset(sorted) == multiset(EntriesOf(k, instanceIds, ids))
    requires ShardOk(k, ShardEntries(sorted, ShardFn(k), d), sh) && i < |ShardEntries(sorted, ShardFn(k), d)|
    requires var fid := ShardEntries(sorted, ShardFn(k), d)[i].fid;
             k.Configured(fid) && ShardFn(k)(fid) == d && 0 <= j < k.config.slotSize[GetSlot(fid, k.useFidV2)]
    ensures Batch(k, sh.instanceIds, sh.fids) && |sh.fidToUnique| == |sh.fids|
    ensures var fid := ShardEntries(sorted, ShardFn(k), d)[i].fid;
            SliceCell(k, sh.instanceIds, sh.fids, sh.fidToUnique, g, k.Weight(fid), sh.fidToUnique[i], j)
              == IdGradient(k, instanceIds, ids, fid, g, j)
  {
    hide SortedById, Indexed, Counted, Kernel.Usable, InTables, AllConfigured, EntrySum, IdGradient, EntriesOf,
         SliceCell;
    var es := ShardEntries(sorted, ShardFn(k), d);
    var fid := es[i].fid;
    ShardIsSorted(sorted, ShardFn(k), d);
    SliceOfId(k, es, sh, i);
    SliceOfEntries(k, es, sh.fidToUnique, fid, g, sh.fidToUnique[i], j);
    EntrySumOfShard(sorted, ShardFn(k), fid, GradAt(k, fid, g, j));
    EntrySumOfPermutation(sorted, EntriesOf(k, instanceIds, ids), fid, GradAt(k, fid, g, j));
    EntrySumOfBatch(k, instanceIds, ids, fid, g, j);
  }

  /** The gradient of an id: whatever the number of shards, the id's row has a slice on the row's shard, and column `j`
      of that slice is the sum of the output gradients, `j` columns into its slot's, over all positions of the batch
      that hold the id. */
  lemma GradientOfId(k: Kernel, instanceIds: seq<int>, ids: seq<int>, sorted: seq<Entry>, shards: seq<Shard>, g: Grads,
                     p: nat, j: int) returns (d: nat, i: nat)
    requires Batch(k, instanceIds, ids) && SortedById(sorted) && |shards| == k.numShards
    requires multiset(sorted) == multiset(EntriesOf(k, instanceIds, ids)) && p < |ids|
    requires forall d :: 0 <= d < k.numShards ==> ShardOk(k, ShardEntries(sorted, ShardFn(k), d), shards[d])
    requires k.config.slotWeightIndex[GetSlot(ToUint64(ids[p]), k.useFidV2)] >= 0
    requires 0 <= j < k.config.slotSize[GetSlot(ToUint64(ids[p]), k.useFidV2)]
    ensures var fid, lists := ToUint64(ids[p]), k.config;
            var s := GetSlot(fid, k.useFidV2);
            var w := lists.slotWeightIndex[s];
            && 0 < lists.slotHashSize[s] && d < k.numShards
            && var row, sh := lists.slotWeightOffset[s] + HashFid(fid, lists.slotHashSize[s], k.useFidV2), shards[d];
               && d == row % k.numShards && Batch(k, sh.instanceIds, sh.fids) && |sh.fidToUnique| == |sh.fids|
               && i < |sh.fids| && ToUint64(sh.fids[i]) == fid && sh.instanceIds[i] == instanceIds[p]
               && 0 <= w < |sh.uniqueHash| && 0 <= sh.fidToUnique[i] < |sh.uniqueHash[w]|
               && sh.uniqueHash[w][sh.fidToUnique[i]] == row / k.numShards
               && SliceCell(k, sh.instanceIds, sh.fids, sh.fidToUnique, g, w, sh.fidToUnique[i], j)
                    == IdGradient(k, instanceIds, ids, fid, g, j)
  {
    hide SortedById, Indexed, Counted, InTables, AllConfigured, EntrySum, IdGradient, EntriesOf, SliceCell, Batch;
    i := PlaceInShard(k, instanceIds, ids, sorted, p);
    var fid := ToUint64(ids[p]);
    d := k.ShardOf(fid);
    var es := ShardEntries(sorted, ShardFn(k), d);
    SortedAreConfigured(k, instanceIds, ids, sorted);
    EntryOf(k, es, i);
    SliceIsIdGradient(k, instanceIds, ids, sorted, d, shards[d], i, g, j);
    SliceRow(k, es, shards[d], i);
    InstancesLength(es);
  }

  lemma SortedAreConfigured(k: Kernel, instanceIds: seq<int>, ids: seq<int>, sorted: seq<Entry>)
    requires Batch(k, instanceIds, ids) && multiset(sorted) == multiset(EntriesOf(k, instanceIds, ids))
    ensures AllConfigured(k, sorted)
  {
    SortedConfigured(k, EntriesOf(k, instanceIds, ids), sorted);
  }

  lemma InstancesLength(es: seq<Entry>)
    ensures |Instances(es)| == |es|
  {
  }

  /** The slice of a position stands for its id's row on the shard. */
  lemma SliceRow(k: Kernel, es: seq<Entry>, sh: Shard, i: nat)
    requires k.Usable() && ShardOk(k, es, sh) && i < |es| && k.Configured(es[i].fid)
    ensures |sh.uniqueHash| == k.config.numGroups && |sh.fidToUnique| == |es|
    ensures 0 <= sh.fidToUnique[i] < |sh.uniqueHash[k.Weight(es[i].fid)]|
    ensures sh.uniqueHash[k.Weight(es[i].fid)][sh.fidToUnique[i]] == k.ShardRow(es[i].fid)
  {
    assert SliceCarries(es, WeightFn(k), RowFn(k), i, sh.fidToUnique[i], sh.uniqueHash);
    hide Counted, InTables, Kernel.Usable;
  }
}
