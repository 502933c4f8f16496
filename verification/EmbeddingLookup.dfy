/** The pooling and un-pooling kernels, and the lookup that adds the shards up. */
module EmbeddingLookup {
  import opened FeatureIds
  import opened Permutations
  import opened SlotPlanner
  import opened Sums
  import opened Pooling
  import opened Partition
  import opened EmbeddingKernels

  // ---------------------------------------------------------------- pooling

  type Matrix = seq<seq<real>>

  /** Tensors read as functions; cells outside a tensor do not matter and read as zero. */
  ghost function WeightsAt(weights: seq<Matrix>): Weights {
    (wt, r, j) =>
      if 0 <= wt < |weights| && 0 <= r < |weights[wt]| && 0 <= j < |weights[wt][r]| then weights[wt][r][j] else 0.0
  }

  ghost function GradsAt(grads: Matrix): Grads {
    (b, c) => if 0 <= b < |grads| && 0 <= c < |grads[b]| then grads[b][c] else 0.0
  }

  /** What one id of instance `instance` adds to output cell (b, c), read off the slot lists: one column of its row, if
      the cell lies in its instance's columns of its slot. */
  ghost function Part(k: Kernel, instance: int, id: int, w: Weights, b: int, c: int): real
    requires k.Usable() && k.Known(ToUint64(id))
  {
    var fid, lists := ToUint64(id), k.config;
    var s := GetSlot(fid, k.useFidV2);
    if instance == b && lists.slotOutputOffset[s] <= c < lists.slotOutputOffset[s] + lists.slotSize[s] then
      assert k.SlotUsable(s);
      w(lists.slotWeightIndex[s], lists.slotWeightOffset[s] + HashFid(fid, lists.slotHashSize[s], k.useFidV2),
        c - lists.slotOutputOffset[s])
    else 0.0
  }

  /** Output cell (b, c) of a batch: the sum over its positions. */
  ghost function CellOf(k: Kernel, instanceIds: seq<int>, ids: seq<int>, w: Weights, b: int, c: int): real
    requires Batch(k, instanceIds, ids)
  {
    if ids == [] then 0.0
    else
      var n := |ids| - 1;
      CellOf(k, instanceIds[..n], ids[..n], w, b, c) + Part(k, instanceIds[n], ids[n], w, b, c)
  }

  /** What one id adds to cell (u, j) of table `wt`'s gradient slices, if `unique` is its slice. */
  ghost function GradPart(k: Kernel, instance: int, id: int, unique: int, g: Grads, wt: int, u: int, j: int): real
    requires k.Usable() && k.Known(ToUint64(id))
  {
    var lists, s := k.config, GetSlot(ToUint64(id), k.useFidV2);
    if unique == u && lists.slotWeightIndex[s] == wt && 0 <= j < lists.slotSize[s]
    then g(instance, lists.slotOutputOffset[s] + j) else 0.0
  }

  /** Cell (u, j) of table `wt`'s gradient slices: the sum over the positions. */
  ghost function SliceCell(k: Kernel, instanceIds: seq<int>, ids: seq<int>, unique: seq<int>, g: Grads, wt: int, u: int,
                           j: int): real
    requires Batch(k, instanceIds, ids) && |unique| == |ids|
  {
    if ids == [] then 0.0
    else
      var n := |ids| - 1;
      SliceCell(k, instanceIds[..n], ids[..n], unique[..n], g, wt, u, j)
        + GradPart(k, instanceIds[n], ids[n], unique[n], g, wt, u, j)
  }

  /** Row `r` of an undivided table is row `r / n` of its shard. */
  ghost function InShards(w: Weights, n: nat): Weights
    requires n > 0
  {
    (wt, r, j) => w(wt, r / n, j)
  }

  /** What the pooling loop reads off the lists for one id of a configured slot. */
  function LocalTerm(k: Kernel, fid: int, instanceId: int): Term
    requires k.Configured(fid)
  {
    var s := GetSlot(fid, k.useFidV2);
    Term(instanceId, k.Weight(fid), k.ShardRow(fid), k.config.slotOutputOffset[s], k.config.slotSize[s])
  }

  /** The terms of the ids of configured slots, in input order. */
  ghost function TermsOf(k: Kernel, instanceIds: seq<int>, fids: seq<int>): seq<Term>
    requires Batch(k, instanceIds, fids)
  {
    if fids == [] then []
    else
      var n := |fids| - 1;
      TermsOf(k, instanceIds[..n], fids[..n]) + TermsOfOne(k, instanceIds[n], ToUint64(fids[n]))
  }

  ghost function TermsOfOne(k: Kernel, instanceId: int, fid: int): seq<Term>
    requires k.Usable() && k.Known(fid)
  {
    if k.Weight(fid) < 0 then []
    else (assert k.SlotUsable(GetSlot(fid, k.useFidV2)); [LocalTerm(k, fid, instanceId)])
  }

  /** A term lies inside the output and inside its table. */
  ghost predicate TermFits(t: Term, batch: nat, columns: int, weights: seq<Matrix>) {
    && 0 <= t.instance < batch && 0 < t.size && 0 <= t.offset && t.offset + t.size <= columns
    && 0 <= t.weight < |weights| && 0 <= t.row < |weights[t.weight]| && t.size <= |weights[t.weight][t.row]|
  }

  /** The innermost pooling loop: add one embedding row to one instance's output columns. */
  method AddRow(output: array2<real>, t: Term, weights: seq<Matrix>)
    requires TermFits(t, output.Length0, output.Length1, weights)
    modifies output
    ensures forall b, c :: 0 <= b < output.Length0 && 0 <= c < output.Length1 ==>
              output[b, c] == old(output[b, c]) + Adds(t, WeightsAt(weights), b, c)
  {
    for j := 0 to t.size
      invariant forall b, c :: 0 <= b < output.Length0 && 0 <= c < output.Length1 ==>
                  output[b, c] == old(output[b, c]) + Adds(t.(size := j), WeightsAt(weights), b, c)
    {
      output[t.instance, t.offset + j] := output[t.instance, t.offset + j] + weights[t.weight][t.row][j];
    }
  }

  /** The terms seen so far, and what the next id adds to them. */
  lemma {:induction false} TermsStep(k: Kernel, instanceIds: seq<int>, fids: seq<int>, i: nat)
    requires Batch(k, instanceIds, fids) && i < |fids|
    ensures Batch(k, instanceIds[..i], fids[..i]) && Batch(k, instanceIds[..i + 1], fids[..i + 1])
    ensures TermsOf(k, instanceIds[..i + 1], fids[..i + 1])
         == TermsOf(k, instanceIds[..i], fids[..i]) + TermsOfOne(k, instanceIds[i], ToUint64(fids[i]))
    ensures forall t :: t in TermsOfOne(k, instanceIds[i], ToUint64(fids[i])) ==> t in TermsOf(k, instanceIds, fids)
    decreases |fids|
  {
    hide Kernel.Usable, TermsOfOne, Kernel.Known;
    assert fids[..i + 1][..i] == fids[..i] && instanceIds[..i + 1][..i] == instanceIds[..i];
    var n := |fids| - 1;
    if i < n {
      TermsStep(k, instanceIds[..n], fids[..n], i);
    } else {
      assert fids[..i + 1] == fids && instanceIds[..i + 1] == instanceIds;
    }
  }

  /** The terms' pooling, cell by cell. */
  lemma {:induction false} PoolCell(k: Kernel, instanceIds: seq<int>, ids: seq<int>, w: Weights, b: int, c: int)
    requires Batch(k, instanceIds, ids)
    ensures PoolAt(TermsOf(k, instanceIds, ids), w, b, c) == CellOf(k, instanceIds, ids, InShards(w, k.numShards), b, c)
  {
    if ids != [] {
      var n := |ids| - 1;
      hide Kernel.Usable, Part, TermsOfOne;
      PoolCell(k, instanceIds[..n], ids[..n], w, b, c);
      PoolCellOfOne(k, TermsOf(k, instanceIds[..n], ids[..n]), instanceIds[n], ids[n], w, b, c);
    }
  }

  lemma PoolCellOfOne(k: Kernel, ts: seq<Term>, instance: int, id: int, w: Weights, b: int, c: int)
    requires k.Usable() && k.Known(ToUint64(id))
    ensures PoolAt(ts + TermsOfOne(k, instance, ToUint64(id)), w, b, c)
         == PoolAt(ts, w, b, c) + Part(k, instance, id, InShards(w, k.numShards), b, c)
  {
    var fid := ToUint64(id);
    assert k.SlotUsable(GetSlot(fid, k.useFidV2));
    if k.Weight(fid) < 0 {
      assert ts + [] == ts;
    } else {
      PoolStep(ts, LocalTerm(k, fid, instance), w);
    }
    hide PoolAt, Kernel.Usable;
  }

  lemma PoolStep(ts: seq<Term>, t: Term, w: Weights)
    ensures forall b, c :: PoolAt(ts + [t], w, b, c) == PoolAt(ts, w, b, c) + Adds(t, w, b, c)
  {
    assert (ts + [t])[..|ts|] == ts;
  }

  /** `LagrangeEmbeddingPooling` on one device. */
  method Pool(k: Kernel, batch: nat, instanceIds: seq<int>, fids: seq<int>, weights: seq<Matrix>)
    returns (output: array2<real>)
    requires Batch(k, instanceIds, fids) && k.config.outputSize >= 0
    requires forall t :: t in TermsOf(k, instanceIds, fids) ==> TermFits(t, batch, k.config.outputSize, weights)
    ensures fresh(output) && output.Length0 == batch && output.Length1 == k.config.outputSize
    ensures forall b, c :: 0 <= b < batch && 0 <= c < k.config.outputSize ==>
              output[b, c] == PoolAt(TermsOf(k, instanceIds, fids), WeightsAt(weights), b, c)
    ensures forall b, c :: 0 <= b < batch && 0 <= c < k.config.outputSize ==>
              output[b, c] == CellOf(k, instanceIds, fids, InShards(WeightsAt(weights), k.numShards), b, c)
  {
    output := new real[batch, k.config.outputSize]((_, _) => 0.0);
    ghost var ts: seq<Term> := [];
    for i := 0 to |fids|
      invariant Batch(k, instanceIds[..i], fids[..i]) && ts == TermsOf(k, instanceIds[..i], fids[..i])
      invariant forall b, c :: 0 <= b < batch && 0 <= c < k.config.outputSize ==>
                  output[b, c] == PoolAt(ts, WeightsAt(weights), b, c)
    {
      var fid := ToUint64(fids[i]);
      TermsStep(k, instanceIds, fids, i);
      assert k.SlotUsable(GetSlot(fid, k.useFidV2));
      var size := k.config.slotSize[GetSlot(fid, k.useFidV2)];
      if size != 0 {
        var t := LocalTerm(k, fid, instanceIds[i]);
        assert t in TermsOfOne(k, instanceIds[i], fid);
        hide PoolAt, TermsOf, WeightsAt, Adds, Kernel.Usable, Kernel.Configured, LocalTerm;
        AddRow(output, t, weights);
        PoolStep(ts, t, WeightsAt(weights));
        ts := ts + [t];
      }
    }
    assert fids[..|fids|] == fids && instanceIds[..|fids|] == instanceIds;
    forall b, c | 0 <= b < batch && 0 <= c < k.config.outputSize
      ensures output[b, c] == CellOf(k, instanceIds, fids, InShards(WeightsAt(weights), k.numShards), b, c)
    {
      PoolCell(k, instanceIds, fids, WeightsAt(weights), b, c);
    }
  }

  // ---------------------------------------------------------------- un-pooling

  /** One gradient tensor per table, all different. */
  ghost predicate Tensors(values: seq<array2<real>>, uniqueCount: seq<int>, width: seq<int>) {
    && |values| == |uniqueCount| == |width|
    && (forall w :: 0 <= w < |values| ==> values[w].Length0 == uniqueCount[w] && values[w].Length1 == width[w])
    && (forall v, w :: 0 <= v < w < |values| ==> values[v] != values[w])
  }

  method AllocateTensors(uniqueCount: seq<int>, width: seq<int>) returns (values: seq<array2<real>>)
    requires |uniqueCount| == |width|
    requires forall w :: 0 <= w < |width| ==> 0 <= uniqueCount[w] && 0 <= width[w]
    ensures Tensors(values, uniqueCount, width) && forall w :: 0 <= w < |values| ==> fresh(values[w])
    ensures forall w, u, j :: 0 <= w < |values| && 0 <= u < uniqueCount[w] && 0 <= j < width[w] ==>
              values[w][u, j] == 0.0
  {
    values := [];
    for n := 0 to |width|
      invariant Tensors(values, uniqueCount[..n], width[..n]) && |values| == n
      invariant forall w :: 0 <= w < n ==> fresh(values[w])
      invariant forall w, u, j :: 0 <= w < n && 0 <= u < uniqueCount[w] && 0 <= j < width[w] ==> values[w][u, j] == 0.0
    {
      var v := new real[uniqueCount[n], width[n]]((_, _) => 0.0);
      values := values + [v];
    }
  }

  /** Slice `u` of a term exists and is wide enough, and the term's gradient columns exist. */
  ghost predicate SliceFits(t: Term, u: int, uniqueCount: seq<int>, width: seq<int>, grads: Matrix) {
    && 0 <= t.weight < |uniqueCount| == |width| && 0 <= u < uniqueCount[t.weight] && 0 <= t.size <= width[t.weight]
    && 0 <= t.instance < |grads| && 0 <= t.offset && t.offset + t.size <= |grads[t.instance]|
  }

  /** The innermost un-pooling loop: add an output gradient's columns to a slice. */
  method AddGrad(values: seq<array2<real>>, uniqueCount: seq<int>, width: seq<int>, t: Term, u: int, grads: Matrix)
    requires Tensors(values, uniqueCount, width) && SliceFits(t, u, uniqueCount, width, grads)
    modifies values[t.weight]
    ensures forall w, v, j :: 0 <= w < |values| && 0 <= v < uniqueCount[w] && 0 <= j < width[w] ==>
              values[w][v, j] == old(values[w][v, j]) + Unadds(t, u, GradsAt(grads), w, v, j)
  {
    var tensor := values[t.weight];
    for j := 0 to t.size
      invariant forall v, c :: 0 <= v < uniqueCount[t.weight] && 0 <= c < width[t.weight] ==>
                  tensor[v, c] == old(tensor[v, c]) + Unadds(t.(size := j), u, GradsAt(grads), t.weight, v, c)
    {
      tensor[u, j] := tensor[u, j] + grads[t.instance][t.offset + j];
    }
  }

  /** Every id belongs to a configured slot, as the ids handed to a shard do. */
  ghost predicate ShardBatch(k: Kernel, instanceIds: seq<int>, fids: seq<int>) {
    && Batch(k, instanceIds, fids)
    && forall i :: 0 <= i < |fids| ==> k.Configured(ToUint64(fids[i]))
  }

  lemma {:induction false} OneTermPerId(k: Kernel, instanceIds: seq<int>, fids: seq<int>)
    requires ShardBatch(k, instanceIds, fids)
    ensures |TermsOf(k, instanceIds, fids)| == |fids|
    ensures forall i :: 0 <= i < |fids| ==>
              TermsOf(k, instanceIds, fids)[i] == LocalTerm(k, ToUint64(fids[i]), instanceIds[i])
  {
    if fids != [] {
      OneTermPerId(k, instanceIds[..|fids| - 1], fids[..|fids| - 1]);
    }
  }

  lemma UnpoolOneMore(ts: seq<Term>, unique: seq<int>, i: nat, g: Grads)
    requires i < |ts| == |unique|
    ensures forall w, u, j :: UnpoolAt(ts[..i + 1], unique[..i + 1], g, w, u, j)
              == UnpoolAt(ts[..i], unique[..i], g, w, u, j) + Unadds(ts[i], unique[i], g, w, u, j)
  {
    assert ts[..i + 1][..i] == ts[..i] && unique[..i + 1][..i] == unique[..i];
  }

  /** The slices hold the gradient of the terms `ts`. */
  ghost predicate Unpooled(values: seq<array2<real>>, uniqueCount: seq<int>, width: seq<int>, ts: seq<Term>,
                           unique: seq<int>, g: Grads)
    requires Tensors(values, uniqueCount, width) && |ts| == |unique|
    reads values
  {
    forall w, u, j :: 0 <= w < |values| && 0 <= u < uniqueCount[w] && 0 <= j < width[w] ==>
      values[w][u, j] == UnpoolAt(ts, unique, g, w, u, j)
  }

  /** The body of the un-pooling loop. */
  method UnpoolNext(values: seq<array2<real>>, uniqueCount: seq<int>, width: seq<int>, ghost ts: seq<Term>,
                    fidToUnique: seq<int>, i: nat, t: Term, grads: Matrix)
    requires Tensors(values, uniqueCount, width) && i < |ts| == |fidToUnique| && t == ts[i]
    requires SliceFits(t, fidToUnique[i], uniqueCount, width, grads)
    requires Unpooled(values, uniqueCount, width, ts[..i], fidToUnique[..i], GradsAt(grads))
    modifies values[t.weight]
    ensures Unpooled(values, uniqueCount, width, ts[..i + 1], fidToUnique[..i + 1], GradsAt(grads))
  {
    hide UnpoolAt, Unadds, GradsAt;
    UnpoolOneMore(ts, fidToUnique, i, GradsAt(grads));
    AddGrad(values, uniqueCount, width, t, fidToUnique[i], grads);
  }

  /** `LagrangeEmbeddingUnpooling`: the gradient slices of one shard. */
  method Unpool(k: Kernel, grads: Matrix, instanceIds: seq<int>, fids: seq<int>, fidToUnique: seq<int>,
                uniqueCount: seq<int>)
    returns (values: seq<array2<real>>)
    requires ShardBatch(k, instanceIds, fids) && |fidToUnique| == |fids|
    requires |uniqueCount| == k.config.numGroups
    requires forall w :: 0 <= w < k.config.numGroups ==> 0 <= uniqueCount[w] && 0 <= k.config.weightSizes[w]
    requires forall i :: 0 <= i < |fids| ==>
               SliceFits(LocalTerm(k, ToUint64(fids[i]), instanceIds[i]), fidToUnique[i], uniqueCount,
                         k.config.weightSizes, grads)
    ensures |TermsOf(k, instanceIds, fids)| == |fids|
    ensures Tensors(values, uniqueCount, k.config.weightSizes)
    ensures Unpooled(values, uniqueCount, k.config.weightSizes, TermsOf(k, instanceIds, fids), fidToUnique,
                     GradsAt(grads))
    ensures forall w, u, j :: 0 <= w < |values| && 0 <= u < uniqueCount[w] && 0 <= j < k.config.weightSizes[w] ==>
              values[w][u, j] == SliceCell(k, instanceIds, fids, fidToUnique, GradsAt(grads), w, u, j)
  {
    var width := k.config.weightSizes;
    values := AllocateTensors(uniqueCount, width);
    OneTermPerId(k, instanceIds, fids);
    ghost var ts := TermsOf(k, instanceIds, fids);
    hide UnpoolAt, GradsAt, LocalTerm, TermsOf, Kernel.Configured, Kernel.Usable, Batch, SliceFits;
    assert Unpooled(values, uniqueCount, width, ts[..0], fidToUnique[..0], GradsAt(grads)) by {
      NothingUnpooledYet(ts[..0], fidToUnique[..0], GradsAt(grads));
    }
    hide Unpooled;
    for i := 0 to |fids|
      invariant Unpooled(values, uniqueCount, width, ts[..i], fidToUnique[..i], GradsAt(grads))
    {
      UnpoolNext(values, uniqueCount, width, ts, fidToUnique, i, LocalTerm(k, ToUint64(fids[i]), instanceIds[i]),
                 grads);
    }
    assert ts[..|fids|] == ts && fidToUnique[..|fids|] == fidToUnique;
    SlicesCellByCell(k, values, instanceIds, fids, fidToUnique, uniqueCount, GradsAt(grads));
  }

  lemma SlicesCellByCell(k: Kernel, values: seq<array2<real>>, instanceIds: seq<int>, fids: seq<int>,
                         fidToUnique: seq<int>, uniqueCount: seq<int>, g: Grads)
    requires ShardBatch(k, instanceIds, fids) && |TermsOf(k, instanceIds, fids)| == |fids| == |fidToUnique|
    requires Tensors(values, uniqueCount, k.config.weightSizes)
    requires Unpooled(values, uniqueCount, k.config.weightSizes, TermsOf(k, instanceIds, fids), fidToUnique, g)
    ensures forall w, u, j :: 0 <= w < |values| && 0 <= u < uniqueCount[w] && 0 <= j < k.config.weightSizes[w] ==>
              values[w][u, j] == SliceCell(k, instanceIds, fids, fidToUnique, g, w, u, j)
  {
    hide UnpoolAt, TermsOf, Kernel.Usable, Kernel.Configured, SliceCell;
    forall w, u, j | 0 <= w < |values| && 0 <= u < uniqueCount[w] && 0 <= j < k.config.weightSizes[w]
      ensures values[w][u, j] == SliceCell(k, instanceIds, fids, fidToUnique, g, w, u, j)
    {
      UnpoolCell(k, instanceIds, fids, fidToUnique, g, w, u, j);
    }
  }

  /** The terms' un-pooling, cell by cell. */
  lemma {:induction false} UnpoolCell(k: Kernel, instanceIds: seq<int>, ids: seq<int>, unique: seq<int>, g: Grads,
                                      wt: int, u: int, j: int)
    requires ShardBatch(k, instanceIds, ids) && |unique| == |ids|
    ensures |TermsOf(k, instanceIds, ids)| == |ids|
    ensures UnpoolAt(TermsOf(k, instanceIds, ids), unique, g, wt, u, j)
         == SliceCell(k, instanceIds, ids, unique, g, wt, u, j)
  {
    OneTermPerId(k, instanceIds, ids);
    if ids != [] {
      hide Kernel.Usable, Kernel.Configured, Unadds, GradPart, LocalTerm, UnpoolAt, TermsOfOne;
      var n := |ids| - 1;
      UnpoolCell(k, instanceIds[..n], ids[..n], unique[..n], g, wt, u, j);
      LastTerm(k, instanceIds, ids);
      UnpoolAppend(TermsOf(k, instanceIds[..n], ids[..n]), LocalTerm(k, ToUint64(ids[n]), instanceIds[n]), unique, g,
                   wt, u, j);
      GradPartOfTerm(k, instanceIds[n], ids[n], unique[n], g, wt, u, j);
    }
  }

  lemma LastTerm(k: Kernel, instanceIds: seq<int>, ids: seq<int>)
    requires ShardBatch(k, instanceIds, ids) && ids != []
    ensures var n := |ids| - 1;
            && ShardBatch(k, instanceIds[..n], ids[..n]) && |TermsOf(k, instanceIds[..n], ids[..n])| == n
            && k.Configured(ToUint64(ids[n]))
            && TermsOf(k, instanceIds, ids)
                 == TermsOf(k, instanceIds[..n], ids[..n]) + [LocalTerm(k, ToUint64(ids[n]), instanceIds[n])]
  {
    OneTermPerId(k, instanceIds[..|ids| - 1], ids[..|ids| - 1]);
    hide LocalTerm;
  }

  lemma UnpoolAppend(ts: seq<Term>, t: Term, unique: seq<int>, g: Grads, wt: int, u: int, j: int)
    requires |unique| == |ts| + 1
    ensures UnpoolAt(ts + [t], unique, g, wt, u, j)
         == UnpoolAt(ts, unique[..|ts|], g, wt, u, j) + Unadds(t, unique[|ts|], g, wt, u, j)
  {
    hide Unadds;
    assert (ts + [t])[..|ts|] == ts;
  }

  lemma GradPartOfTerm(k: Kernel, instance: int, id: int, unique: int, g: Grads, wt: int, u: int, j: int)
    requires k.Configured(ToUint64(id))
    ensures Unadds(LocalTerm(k, ToUint64(id), instance), unique, g, wt, u, j)
         == GradPart(k, instance, id, unique, g, wt, u, j)
  {
    hide Kernel.Usable;
  }

  lemma NothingUnpooledYet(ts: seq<Term>, unique: seq<int>, g: Grads)
    requires ts == [] && unique == []
    ensures forall w, u, j :: UnpoolAt(ts, unique, g, w, u, j) == 0.0
  {
  }

  // ---------------------------------------------------------------- the sharded lookup

  /** The terms of some entries, with their rows in the undivided tables. */
  ghost function FullTerms(k: Kernel, es: seq<Entry>): seq<Term> {
    Mapped(es, FullTerm(k))
  }

  ghost function FullTerm(k: Kernel): Entry -> Term {
    (e: Entry) =>
      if k.Configured(e.fid) then LocalTerm(k, e.fid, e.instance).(row := k.Row(e.fid)) else Term(0, 0, 0, 0, 0)
  }

  ghost function Mapped(es: seq<Entry>, f: Entry -> Term): seq<Term> {
    seq(|es|, i requires 0 <= i < |es| => f(es[i]))
  }

  lemma {:induction false} MappedPermutation(xs: seq<Entry>, ys: seq<Entry>, f: Entry -> Term)
    requires multiset(xs) == multiset(ys)
    ensures multiset(Mapped(xs, f)) == multiset(Mapped(ys, f))
  {
    SameElements(xs, ys);
    if xs != [] {
      var n := |xs| - 1;
      var i := MatchLast(xs, ys);
      MappedPermutation(xs[..n], ys[..i] + ys[i + 1..], f);
      MappedWithout(ys, f, i);
      assert Mapped(xs, f) == Mapped(xs[..n], f) + [f(xs[n])];
    }
  }

  lemma MappedWithout(es: seq<Entry>, f: Entry -> Term, i: nat)
    requires i < |es|
    ensures multiset(Mapped(es, f)) == multiset(Mapped(es[..i] + es[i + 1..], f)) + multiset{f(es[i])}
  {
    var ft := Mapped(es, f);
    assert ft == ft[..i] + [ft[i]] + ft[i + 1..];
    assert Mapped(es[..i] + es[i + 1..], f) == ft[..i] + ft[i + 1..];
  }

  lemma EntriesAreBatch(k: Kernel, es: seq<Entry>)
    requires k.Usable() && AllConfigured(k, es)
    ensures ShardBatch(k, Instances(es), Ids(es))
    ensures forall i :: 0 <= i < |es| ==> ToUint64(Ids(es)[i]) == es[i].fid
  {
    forall i | 0 <= i < |es|
      ensures -TWO_63 <= Ids(es)[i] < TWO_63 && ToUint64(Ids(es)[i]) == es[i].fid && k.Configured(es[i].fid)
    {
      assert es[i] in es;
    }
  }

  ghost function LocalTermFn(k: Kernel): Entry -> Term {
    (e: Entry) => if k.Configured(e.fid) then LocalTerm(k, e.fid, e.instance) else Term(0, 0, 0, 0, 0)
  }

  /** `local` is `full` with the row seen from the entry's shard. */
  ghost predicate RowsByShard(es: seq<Entry>, shard: int -> int, local: Entry -> Term, full: Entry -> Term, n: nat)
    requires n > 0
  {
    forall e :: e in es ==> shard(e.fid) == full(e).row % n && local(e) == full(e).(row := full(e).row / n)
  }

  lemma {:induction false} MappedShare(es: seq<Entry>, shard: int -> int, local: Entry -> Term, full: Entry -> Term,
                                       n: nat, d: int)
    requires n > 0 && RowsByShard(es, shard, local, full, n)
    ensures Mapped(ShardEntries(es, shard, d), local) == ShardTerms(Mapped(es, full), n, d)
  {
    if es != [] {
      var front, last := es[..|es| - 1], es[|es| - 1];
      assert last in es;
      MappedShare(front, shard, local, full, n, d);
      assert Mapped(es, full)[..|es| - 1] == Mapped(front, full);
      var mine := ShardEntries(front, shard, d);
      if shard(last.fid) == d {
        assert Mapped(mine + [last], local) == Mapped(mine, local) + [local(last)];
      } else {
        assert ShardEntries(es, shard, d) == mine;
      }
    }
  }

  /** The terms the kernel reads for some entries. */
  lemma TermsAreMapped(k: Kernel, es: seq<Entry>)
    requires k.Usable() && AllConfigured(k, es)
    ensures ShardBatch(k, Instances(es), Ids(es))
    ensures TermsOf(k, Instances(es), Ids(es)) == Mapped(es, LocalTermFn(k))
  {
    EntriesAreBatch(k, es);
    OneTermPerId(k, Instances(es), Ids(es));
    hide TermsOf, Kernel.Usable, Kernel.Configured, LocalTerm, ToUint64;
    var ts, mapped := TermsOf(k, Instances(es), Ids(es)), Mapped(es, LocalTermFn(k));
    forall i | 0 <= i < |es| ensures ts[i] == mapped[i] {
      assert es[i] in es;
    }
  }

  /** The terms a shard's kernel reads are the shard's share of the undivided terms. */
  lemma ShardReadsItsShare(k: Kernel, es: seq<Entry>, d: int)
    requires k.Usable() && AllConfigured(k, es)
    ensures AllConfigured(k, ShardEntries(es, ShardFn(k), d))
    ensures ShardBatch(k, Instances(ShardEntries(es, ShardFn(k), d)), Ids(ShardEntries(es, ShardFn(k), d)))
    ensures TermsOf(k, Instances(ShardEntries(es, ShardFn(k), d)), Ids(ShardEntries(es, ShardFn(k), d)))
         == ShardTerms(FullTerms(k, es), k.numShards, d)
  {
    TermsAreMapped(k, ShardEntries(es, ShardFn(k), d));
    assert RowsByShard(es, ShardFn(k), LocalTermFn(k), FullTerm(k), k.numShards) by {
      hide Kernel.Usable, Kernel.Row, Kernel.SlotUsable;
    }
    MappedShare(es, ShardFn(k), LocalTermFn(k), FullTerm(k), k.numShards, d);
  }

  /** The shard variables are the 'mod' shards of the undivided tables `full`, sized by `_sharded_size`. */
  ghost predicate SplitTables(k: Kernel, shards: seq<seq<Matrix>>, full: Weights)
    requires k.Usable()
  {
    && |shards| == k.numShards
    && forall d :: 0 <= d < k.numShards ==> ShardTables(k, shards[d], full, d)
  }

  ghost predicate ShardTables(k: Kernel, tables: seq<Matrix>, full: Weights, d: nat)
    requires k.Usable()
  {
    && |tables| == k.config.numGroups
    && forall w :: 0 <= w < k.config.numGroups ==>
         && 0 <= k.config.weightHashSizes[w]
         && |tables[w]| == ShardedSize(k.config.weightHashSizes[w], d, k.numShards)
         && forall r :: 0 <= r < |tables[w]| ==>
              && |tables[w][r]| == k.config.weightSizes[w]
              && forall j :: 0 <= j < |tables[w][r]| ==> tables[w][r][j] == full(w, r * k.numShards + d, j)
  }

  ghost predicate InBatch(es: seq<Entry>, batch: nat) {
    forall e :: e in es ==> 0 <= e.instance < batch
  }

  /** A row lies inside its shard. */
  lemma RowFitsShard(k: Kernel, fid: int, d: nat)
    requires k.Configured(fid) && k.ShardOf(fid) == d && 0 <= k.config.weightHashSizes[k.Weight(fid)]
    ensures 0 <= k.ShardRow(fid) < ShardedSize(k.config.weightHashSizes[k.Weight(fid)], d, k.numShards)
  {
    var v, n := k.Row(fid), k.numShards;
    hide *;
    hide Kernel.Row;
    ShardsTileTable(k.config.weightHashSizes[k.Weight(fid)], n, d, v / n);
    assert v == (v / n) * n + d;
  }

  /** Every row a shard is asked for lies inside its own shard. */
  lemma ShardTermFits(k: Kernel, es: seq<Entry>, batch: nat, tables: seq<Matrix>, full: Weights, d: nat, i: nat)
    requires k.Usable() && AllConfigured(k, es) && InBatch(es, batch) && d < k.numShards && i < |es|
    requires ShardTables(k, tables, full, d) && k.Configured(es[i].fid) && k.ShardOf(es[i].fid) == d
    ensures TermFits(LocalTerm(k, es[i].fid, es[i].instance), batch, k.config.outputSize, tables)
  {
    assert es[i] in es;
    RowFitsShard(k, es[i].fid, d);
  }

  lemma {:induction false} SameRowsSamePool(ts: seq<Term>, batch: nat, columns: int, tables: seq<Matrix>, w: Weights,
                                            b: int, c: int)
    requires forall t :: t in ts ==> TermFits(t, batch, columns, tables)
    requires forall wt, r, j :: 0 <= wt < |tables| && 0 <= r < |tables[wt]| && 0 <= j < |tables[wt][r]| ==>
               tables[wt][r][j] == w(wt, r, j)
    ensures PoolAt(ts, WeightsAt(tables), b, c) == PoolAt(ts, w, b, c)
  {
    if ts != [] {
      SameRowsSamePool(ts[..|ts| - 1], batch, columns, tables, w, b, c);
      assert ts[|ts| - 1] in ts;
    }
  }

  /** Every term of a shard lies inside the output and inside the shard's tables. */
  lemma ShardTermsFit(k: Kernel, es: seq<Entry>, batch: nat, tables: seq<Matrix>, full: Weights, d: nat)
    requires k.Usable() && AllConfigured(k, es) && InBatch(es, batch) && d < k.numShards
    requires ShardTables(k, tables, full, d) && forall e :: e in es ==> ShardFn(k)(e.fid) == d
    ensures ShardBatch(k, Instances(es), Ids(es))
    ensures forall t :: t in TermsOf(k, Instances(es), Ids(es)) ==> TermFits(t, batch, k.config.outputSize, tables)
  {
    TermsAreMapped(k, es);
    hide Kernel.Usable, TermFits, LocalTerm, TermsOf, ShardTables;
    forall i | 0 <= i < |es| ensures TermFits(Mapped(es, LocalTermFn(k))[i], batch, k.config.outputSize, tables) {
      assert es[i] in es;
      ShardTermFits(k, es, batch, tables, full, d, i);
    }
  }

  /** The shard's tables hold its share of the weights. */
  lemma TablesAgree(k: Kernel, tables: seq<Matrix>, full: Weights, d: nat)
    requires k.Usable() && d < k.numShards && ShardTables(k, tables, full, d)
    ensures forall w, r, j :: 0 <= w < |tables| && 0 <= r < |tables[w]| && 0 <= j < |tables[w][r]| ==>
              tables[w][r][j] == ShardWeights(full, k.numShards, d)(w, r, j)
  {
    hide Kernel.Usable;
  }

  /** A shard's output cell, read off the undivided tables. */
  lemma ShardCell(k: Kernel, sorted: seq<Entry>, batch: nat, tables: seq<Matrix>, full: Weights, d: nat, b: int, c: int)
    requires k.Usable() && AllConfigured(k, sorted) && InBatch(sorted, batch) && d < k.numShards
    requires ShardTables(k, tables, full, d)
    ensures ShardBatch(k, Instances(ShardEntries(sorted, ShardFn(k), d)), Ids(ShardEntries(sorted, ShardFn(k), d)))
    ensures PoolAt(TermsOf(k, Instances(ShardEntries(sorted, ShardFn(k), d)), Ids(ShardEntries(sorted, ShardFn(k), d))),
                   WeightsAt(tables), b, c)
         == PoolAt(ShardTerms(FullTerms(k, sorted), k.numShards, d), ShardWeights(full, k.numShards, d), b, c)
  {
    ShardReadsItsShare(k, sorted, d);
    var es := ShardEntries(sorted, ShardFn(k), d);
    ShardTermsFit(k, es, batch, tables, full, d);
    TablesAgree(k, tables, full, d);
    hide Kernel.Usable, TermFits, TermsOf, PoolAt, FullTerms, Ids, Instances, ShardTables, AllConfigured, InBatch,
         ShardEntries, ShardFn, ShardTerms, ShardWeights;
    SameRowsSamePool(TermsOf(k, Instances(es), Ids(es)), batch, k.config.outputSize, tables,
                     ShardWeights(full, k.numShards, d), b, c);
  }

  /** One shard's pooling, in terms of the undivided tables. */
  method LookupOneShard(k: Kernel, batch: nat, ghost sorted: seq<Entry>, d: nat, sh: Shard, tables: seq<Matrix>,
                        ghost full: Weights)
    returns (output: array2<real>)
    requires k.Usable() && AllConfigured(k, sorted) && InBatch(sorted, batch) && d < k.numShards
    requires k.config.outputSize >= 0
    requires ShardOk(k, ShardEntries(sorted, ShardFn(k), d), sh) && ShardTables(k, tables, full, d)
    ensures fresh(output) && output.Length0 == batch && output.Length1 == k.config.outputSize
    ensures forall b, c :: 0 <= b < batch && 0 <= c < k.config.outputSize ==>
              output[b, c] == PoolAt(ShardTerms(FullTerms(k, sorted), k.numShards, d),
                                     ShardWeights(full, k.numShards, d), b, c)
  {
    ShardTermsFit(k, ShardEntries(sorted, ShardFn(k), d), batch, tables, full, d);
    output := Pool(k, batch, sh.instanceIds, sh.fids, tables);
    hide *;
    hide PoolAt;
    forall b, c | 0 <= b < batch && 0 <= c < k.config.outputSize
      ensures output[b, c] == PoolAt(ShardTerms(FullTerms(k, sorted), k.numShards, d),
                                     ShardWeights(full, k.numShards, d), b, c)
    {
      ShardCell(k, sorted, batch, tables, full, d, b, c);
    }
  }

  /** The ids the kernel sorted are the configured ones. */
  lemma SortedInBatch(k: Kernel, entries: seq<Entry>, sorted: seq<Entry>, batch: nat)
    requires AllConfigured(k, entries) && InBatch(entries, batch) && multiset(sorted) == multiset(entries)
    ensures AllConfigured(k, sorted) && InBatch(sorted, batch)
  {
    SortedConfigured(k, entries, sorted);
    assert forall e :: e in sorted ==> e in multiset(entries);
  }

  lemma ShardSumsToPool(k: Kernel, entries: seq<Entry>, sorted: seq<Entry>, full: Weights, n: nat, b: int, c: int)
    requires n > 0 && multiset(sorted) == multiset(entries)
    ensures ShardSum(FullTerms(k, sorted), full, n, n, b, c) == PoolAt(FullTerms(k, entries), full, b, c)
  {
    ShardedPoolIsPool(FullTerms(k, sorted), full, n, b, c);
    MappedPermutation(sorted, entries, FullTerm(k));
    PoolOfPermutation(FullTerms(k, sorted), FullTerms(k, entries), full, b, c);
  }

  /** `Embedding.lookup` after preprocessing: whatever the number of shards, the sum of the shards' outputs is the
      pooling of every configured id's row of the undivided tables. */
  method Lookup(k: Kernel, batch: nat, instanceIds: seq<int>, fids: seq<int>, shardTables: seq<seq<Matrix>>,
                ghost full: Weights)
    returns (output: array2<real>)
    requires Batch(k, instanceIds, fids) && k.config.outputSize >= 0
    requires InBatch(EntriesOf(k, instanceIds, fids), batch) && SplitTables(k, shardTables, full)
    ensures output.Length0 == batch && output.Length1 == k.config.outputSize
    ensures forall b, c :: 0 <= b < batch && 0 <= c < k.config.outputSize ==>
              output[b, c] == PoolAt(FullTerms(k, EntriesOf(k, instanceIds, fids)), full, b, c)
    ensures forall b, c :: 0 <= b < batch && 0 <= c < k.config.outputSize ==>
              output[b, c] == CellOf(k, instanceIds, fids, full, b, c)
  {
    var out, sorted := Preprocess(k, instanceIds, fids);
    ghost var entries := EntriesOf(k, instanceIds, fids);
    SortedInBatch(k, entries, sorted, batch);
    assert k.Usable();
    output := SumShards(k, batch, sorted, out.shards, shardTables, full);
    assert forall b, c :: 0 <= b < batch && 0 <= c < k.config.outputSize ==>
      output[b, c] == ShardSum(FullTerms(k, sorted), full, k.numShards, k.numShards, b, c);
    hide *;
    forall b, c | 0 <= b < batch && 0 <= c < k.config.outputSize
      ensures output[b, c] == PoolAt(FullTerms(k, entries), full, b, c)
    {
      ShardSumsToPool(k, entries, sorted, full, k.numShards, b, c);
    }
    forall b, c ensures PoolAt(FullTerms(k, entries), full, b, c) == CellOf(k, instanceIds, fids, full, b, c) {
      FullCell(k, instanceIds, fids, full, b, c);
    }
  }

  /** The undivided pooling, cell by cell. */
  lemma {:induction false} FullCell(k: Kernel, instanceIds: seq<int>, ids: seq<int>, w: Weights, b: int, c: int)
    requires Batch(k, instanceIds, ids)
    ensures PoolAt(FullTerms(k, EntriesOf(k, instanceIds, ids)), w, b, c) == CellOf(k, instanceIds, ids, w, b, c)
  {
    if ids != [] {
      var n := |ids| - 1;
      FullCell(k, instanceIds[..n], ids[..n], w, b, c);
      FullCellOfOne(k, EntriesOf(k, instanceIds[..n], ids[..n]), instanceIds[n], ids[n], w, b, c);
      hide Kernel.Usable, Part, FullTerms;
    }
  }

  lemma FullCellOfOne(k: Kernel, es: seq<Entry>, instance: int, id: int, w: Weights, b: int, c: int)
    requires k.Usable() && k.Known(ToUint64(id))
    ensures var more := if k.Weight(ToUint64(id)) < 0 then [] else [Entry(ToUint64(id), instance)];
            PoolAt(FullTerms(k, es + more), w, b, c)
              == PoolAt(FullTerms(k, es), w, b, c) + Part(k, instance, id, w, b, c)
  {
    hide Kernel.Usable, PoolAt, Adds, Part;
    var fid := ToUint64(id);
    if k.Weight(fid) < 0 {
      assert es + [] == es;
      NoPart(k, instance, id, w, b, c);
    } else {
      var e := Entry(fid, instance);
      assert FullTerms(k, es + [e]) == FullTerms(k, es) + [FullTerm(k)(e)];
      PoolStep(FullTerms(k, es), FullTerm(k)(e), w);
      PartOfTerm(k, instance, id, w, b, c);
    }
  }

  lemma NoPart(k: Kernel, instance: int, id: int, w: Weights, b: int, c: int)
    requires k.Usable() && k.Known(ToUint64(id)) && k.Weight(ToUint64(id)) < 0
    ensures Part(k, instance, id, w, b, c) == 0.0
  {
    assert k.SlotUsable(GetSlot(ToUint64(id), k.useFidV2));
  }

  lemma PartOfTerm(k: Kernel, instance: int, id: int, w: Weights, b: int, c: int)
    requires k.Usable() && k.Known(ToUint64(id)) && k.Weight(ToUint64(id)) >= 0
    ensures Adds(FullTerm(k)(Entry(ToUint64(id), instance)), w, b, c) == Part(k, instance, id, w, b, c)
  {
    assert k.SlotUsable(GetSlot(ToUint64(id), k.useFidV2));
  }

  /** The loop over the shards. */
  method SumShards(k: Kernel, batch: nat, ghost sorted: seq<Entry>, shards: seq<Shard>, shardTables: seq<seq<Matrix>>,
                   ghost full: Weights)
    returns (output: array2<real>)
    requires k.Usable() && AllConfigured(k, sorted) && InBatch(sorted, batch) && k.config.outputSize >= 0
    requires |shards| == k.numShards && SplitTables(k, shardTables, full)
    requires forall d :: 0 <= d < k.numShards ==> ShardOk(k, ShardEntries(sorted, ShardFn(k), d), shards[d])
    ensures fresh(output) && output.Length0 == batch && output.Length1 == k.config.outputSize
    ensures SumsUp(output, FullTerms(k, sorted), full, k.numShards, k.numShards)
  {
    hide *;
    TablesOfShards(k, shardTables, full);
    ghost var ts := FullTerms(k, sorted);
    output := new real[batch, k.config.outputSize]((_, _) => 0.0);
    SumsStart(output, ts, full, k.numShards);
    for d := 0 to k.numShards
      invariant SumsUp(output, ts, full, k.numShards, d)
    {
      AddShard(k, batch, sorted, d, shards[d], shardTables[d], full, output);
    }
  }

  /** The output holds the sum of the first `d` shards. */
  ghost predicate SumsUp(output: array2<real>, ts: seq<Term>, full: Weights, n: nat, d: nat)
    requires n > 0
    reads output
  {
    forall b, c :: 0 <= b < output.Length0 && 0 <= c < output.Length1 ==> output[b, c] == ShardSum(ts, full, n, d, b, c)
  }

  /** One turn of the loop. */
  method AddShard(k: Kernel, batch: nat, ghost sorted: seq<Entry>, d: nat, sh: Shard, tables: seq<Matrix>,
                  ghost full: Weights, output: array2<real>)
    requires k.Usable() && AllConfigured(k, sorted) && InBatch(sorted, batch) && d < k.numShards
    requires ShardOk(k, ShardEntries(sorted, ShardFn(k), d), sh) && ShardTables(k, tables, full, d)
    requires output.Length0 == batch && output.Length1 == k.config.outputSize
    requires SumsUp(output, FullTerms(k, sorted), full, k.numShards, d)
    modifies output
    ensures SumsUp(output, FullTerms(k, sorted), full, k.numShards, d + 1)
  {
    hide PoolAt, ShardTerms, ShardOk, Kernel.Usable, AllConfigured, FullTerms, ShardTables, InBatch, ShardEntries,
         ShardFn, ShardWeights, ShardSum;
    var one := LookupOneShard(k, batch, sorted, d, sh, tables, full);
    AddTo(output, one);
    forall b, c | 0 <= b < batch && 0 <= c < k.config.outputSize
      ensures output[b, c] == ShardSum(FullTerms(k, sorted), full, k.numShards, d + 1, b, c)
    {
      ShardSumNext(FullTerms(k, sorted), full, k.numShards, d, b, c);
    }
  }

  lemma TablesOfShards(k: Kernel, shards: seq<seq<Matrix>>, full: Weights)
    requires k.Usable() && SplitTables(k, shards, full)
    ensures |shards| == k.numShards && forall d :: 0 <= d < k.numShards ==> ShardTables(k, shards[d], full, d)
  {
    hide Kernel.Usable, ShardTables;
  }

  lemma SumsStart(output: array2<real>, ts: seq<Term>, full: Weights, n: nat)
    requires n > 0 && forall b, c :: 0 <= b < output.Length0 && 0 <= c < output.Length1 ==> output[b, c] == 0.0
    ensures SumsUp(output, ts, full, n, 0)
  {
  }

  lemma ShardSumNext(ts: seq<Term>, full: Weights, n: nat, d: nat, b: int, c: int)
    requires n > 0
    ensures ShardSum(ts, full, n, d + 1, b, c)
         == ShardSum(ts, full, n, d, b, c) + PoolAt(ShardTerms(ts, n, d), ShardWeights(full, n, d), b, c)
  {
    hide PoolAt, ShardTerms, ShardWeights;
  }

  /** The sum over the first `d` shards. */
  ghost function ShardSum(ts: seq<Term>, full: Weights, n: nat, d: nat, b: int, c: int): real
    requires n > 0
  {
    Sum(d, e => PoolAt(ShardTerms(ts, n, e), ShardWeights(full, n, e), b, c))
  }

  /** One step of the elementwise sum of the shards' outputs. */
  method AddTo(output: array2<real>, one: array2<real>)
    requires output != one && output.Length0 == one.Length0 && output.Length1 == one.Length1
    modifies output
    ensures forall b, c :: 0 <= b < output.Length0 && 0 <= c < output.Length1 ==>
              output[b, c] == old(output[b, c]) + one[b, c]
  {
    for b := 0 to output.Length0
      invariant forall b', c :: 0 <= b' < output.Length0 && 0 <= c < output.Length1 ==>
                  output[b', c] == if b' < b then old(output[b', c]) + one[b', c] else old(output[b', c])
    {
      for c := 0 to output.Length1
        invariant forall b', c' :: 0 <= b' < output.Length0 && 0 <= c' < output.Length1 ==>
                    output[b', c'] == if b' < b || (b' == b && c' < c) then old(output[b', c']) + one[b', c']
                                      else old(output[b', c'])
      {
        output[b, c] := output[b, c] + one[b, c];
      }
    }
  }

  // ---------------------------------------------------------------- the gradient of the sharded lookup

  /** The slices as the gradient op names them: slice `u` of table `w` stands for row `rows[w][u]`. */
  ghost function HashAt(rows: seq<seq<int>>): (int, int) -> int {
    (w, u) => if 0 <= w < |rows| && 0 <= u < |rows[w]| then rows[w][u] else -1
  }

  ghost function AsNat(s: seq<int>): int -> nat {
    w => if 0 <= w < |s| && 0 <= s[w] then s[w] else 0
  }

  ghost function RowsOfShard(k: Kernel, d: nat): int -> nat {
    w => if 0 < k.numShards && 0 <= w < |k.config.weightHashSizes| && 0 <= k.config.weightHashSizes[w]
         then ShardedSize(k.config.weightHashSizes[w], d, k.numShards) else 0
  }

  ghost function ShapeOf(k: Kernel, batch: nat, d: nat, uniqueCount: seq<int>): Shape
    requires k.config.outputSize >= 0
  {
    Shape(batch, k.config.outputSize, k.config.numGroups, AsNat(uniqueCount), RowsOfShard(k, d),
          AsNat(k.config.weightSizes))
  }

  /** One term of a shard: it fits the output and its table, and its slice carries its row. */
  lemma TermInShape(k: Kernel, es: seq<Entry>, batch: nat, d: nat, sh: Shard, i: nat)
    requires k.Usable() && ShardOk(k, es, sh) && InBatch(es, batch) && d < k.numShards && i < |es|
    requires k.config.outputSize >= 0 && k.Configured(es[i].fid) && k.ShardOf(es[i].fid) == d
    ensures var t, u := LocalTerm(k, es[i].fid, es[i].instance), sh.fidToUnique[i];
            && 0 <= t.instance < batch && 0 <= t.size && 0 <= t.offset && t.offset + t.size <= k.config.outputSize
            && 0 <= t.weight < k.config.numGroups && t.size <= k.config.weightSizes[t.weight]
            && 0 <= u < |sh.uniqueHash[t.weight]| == sh.uniqueCount[t.weight]
            && sh.uniqueHash[t.weight][u] == t.row && 0 <= t.row < RowsOfShard(k, d)(t.weight)
  {
    assert es[i] in es;
    var w := k.Weight(es[i].fid);
    assert WeightFn(k)(es[i].fid) == w && RowFn(k)(es[i].fid) == k.ShardRow(es[i].fid);
    assert SliceCarries(es, WeightFn(k), RowFn(k), i, sh.fidToUnique[i], sh.uniqueHash);
    RowFitsShard(k, es[i].fid, d);
    hide Kernel.Row, Kernel.ShardRow, Kernel.ShardOf, ShardedSize, Indexed;
  }

  /** Whatever the preprocessing kernel hands to a shard satisfies what pooling and un-pooling ask for. */
  lemma ShardInShape(k: Kernel, es: seq<Entry>, batch: nat, d: nat, sh: Shard)
    requires k.Usable() && ShardOk(k, es, sh) && InBatch(es, batch) && d < k.numShards && k.config.outputSize >= 0
    requires forall e :: e in es ==> ShardFn(k)(e.fid) == d
    ensures ShardBatch(k, sh.instanceIds, sh.fids)
    ensures InShape(TermsOf(k, sh.instanceIds, sh.fids), sh.fidToUnique, HashAt(sh.uniqueHash),
                    ShapeOf(k, batch, d, sh.uniqueCount))
  {
    hide Kernel.Usable, TermsOf, LocalTerm, Counted, Indexed, RowsOfShard;
    TermsAreMapped(k, es);
    var ts := Mapped(es, LocalTermFn(k));
    assert |sh.fidToUnique| == |es| && |sh.uniqueCount| == k.config.numGroups == |sh.uniqueHash| by {
      ShardSizes(k, es, sh);
    }
    forall i | 0 <= i < |es|
      ensures var t, u := ts[i], sh.fidToUnique[i];
        && 0 <= t.instance < batch && 0 <= t.size && 0 <= t.offset && t.offset + t.size <= k.config.outputSize
        && 0 <= t.weight < k.config.numGroups && t.size <= AsNat(k.config.weightSizes)(t.weight)
        && 0 <= u < AsNat(sh.uniqueCount)(t.weight) && HashAt(sh.uniqueHash)(t.weight, u) == t.row
        && 0 <= t.row < RowsOfShard(k, d)(t.weight)
    {
      assert es[i] in es;
      TermInShape(k, es, batch, d, sh, i);
    }
  }

  lemma ShardSizes(k: Kernel, es: seq<Entry>, sh: Shard)
    requires ShardOk(k, es, sh)
    ensures |sh.fidToUnique| == |es| && |sh.uniqueCount| == k.config.numGroups == |sh.uniqueHash|
  {
  }

  ghost predicate GradShape(grads: Matrix, batch: nat, columns: int) {
    |grads| == batch && forall b :: 0 <= b < batch ==> |grads[b]| == columns
  }

  /** What un-pooling asks for, position by position. */
  lemma ShardSliceFits(k: Kernel, es: seq<Entry>, grads: Matrix, d: nat, sh: Shard, i: nat)
    requires k.Usable() && ShardOk(k, es, sh) && InBatch(es, |grads|) && d < k.numShards && k.config.outputSize >= 0
    requires GradShape(grads, |grads|, k.config.outputSize) && i < |es| && ShardFn(k)(es[i].fid) == d
    ensures |sh.fids| == |es| == |sh.fidToUnique| == |sh.instanceIds| && k.Configured(ToUint64(sh.fids[i]))
    ensures SliceFits(LocalTerm(k, ToUint64(sh.fids[i]), sh.instanceIds[i]), sh.fidToUnique[i], sh.uniqueCount,
                      k.config.weightSizes, grads)
  {
    EntriesAreBatch(k, es);
    ShardSizes(k, es, sh);
    assert es[i] in es;
    hide Kernel.Usable, LocalTerm, Counted, Indexed, RowsOfShard;
    TermInShape(k, es, |grads|, d, sh, i);
  }

  lemma TablesHaveSizes(k: Kernel, es: seq<Entry>, sh: Shard)
    requires k.Usable() && ShardOk(k, es, sh)
    requires forall w :: 0 <= w < k.config.numGroups ==> 0 <= k.config.weightSizes[w]
    ensures forall w :: 0 <= w < k.config.numGroups ==> 0 <= sh.uniqueCount[w]
    ensures |sh.uniqueCount| == |k.config.weightSizes| == k.config.numGroups
  {
  }

  /** The gradient op on one shard: its slices are the adjoint of the shard's pooling. */
  method ShardGradient(k: Kernel, grads: Matrix, ghost es: seq<Entry>, d: nat, sh: Shard)
    returns (values: seq<array2<real>>)
    requires k.Usable() && ShardOk(k, es, sh) && InBatch(es, |grads|) && d < k.numShards && k.config.outputSize >= 0
    requires GradShape(grads, |grads|, k.config.outputSize) && forall e :: e in es ==> ShardFn(k)(e.fid) == d
    requires forall w :: 0 <= w < k.config.numGroups ==> 0 <= k.config.weightSizes[w]
    ensures Tensors(values, sh.uniqueCount, k.config.weightSizes)
    ensures ShardBatch(k, sh.instanceIds, sh.fids)
    ensures InShape(TermsOf(k, sh.instanceIds, sh.fids), sh.fidToUnique, HashAt(sh.uniqueHash),
                    ShapeOf(k, |grads|, d, sh.uniqueCount))
    ensures Unpooled(values, sh.uniqueCount, k.config.weightSizes, TermsOf(k, sh.instanceIds, sh.fids),
                     sh.fidToUnique, GradsAt(grads))
    ensures forall full :: PoolDot(TermsOf(k, sh.instanceIds, sh.fids), full, GradsAt(grads),
                                   ShapeOf(k, |grads|, d, sh.uniqueCount))
                        == SlicesDot(TermsOf(k, sh.instanceIds, sh.fids), sh.fidToUnique, full, GradsAt(grads),
                                     HashAt(sh.uniqueHash), ShapeOf(k, |grads|, d, sh.uniqueCount))
  {
    ShardInShape(k, es, |grads|, d, sh);
    TablesHaveSizes(k, es, sh);
    ShardSizes(k, es, sh);
    forall full {
      GradientIsAdjoint(TermsOf(k, sh.instanceIds, sh.fids), sh.fidToUnique, full, GradsAt(grads),
                        HashAt(sh.uniqueHash), ShapeOf(k, |grads|, d, sh.uniqueCount));
    }
    hide InShape, PoolDot, SlicesDot, TermsOf, ShapeOf, HashAt, Unpooled, GradsAt, Kernel.Usable;
    forall i | 0 <= i < |sh.fids|
      ensures SliceFits(LocalTerm(k, ToUint64(sh.fids[i]), sh.instanceIds[i]), sh.fidToUnique[i], sh.uniqueCount,
                        k.config.weightSizes, grads)
    {
      assert es[i] in es;
      ShardSliceFits(k, es, grads, d, sh, i);
    }
    values := Unpool(k, grads, sh.instanceIds, sh.fids, sh.fidToUnique, sh.uniqueCount);
  }

  /** What shard `d` contributes to the inner product of the weights with the gradient. */
  ghost function ShardDot(k: Kernel, shards: seq<Shard>, batch: nat, full: Weights, g: Grads): int -> real
    requires k.config.outputSize >= 0 && k.numShards > 0
  {
    d =>
      if && 0 <= d < |shards| && Batch(k, shards[d].instanceIds, shards[d].fids)
         && |TermsOf(k, shards[d].instanceIds, shards[d].fids)| == |shards[d].fidToUnique|
      then SlicesDot(TermsOf(k, shards[d].instanceIds, shards[d].fids), shards[d].fidToUnique,
                     ShardWeights(full, k.numShards, d), g, HashAt(shards[d].uniqueHash),
                     ShapeOf(k, batch, d, shards[d].uniqueCount))
      else 0.0
  }

  /** Inner product of the pooling of the first `m` shards with an output gradient. */
  ghost function PartialDot(ts: seq<Term>, full: Weights, g: Grads, n: nat, m: nat, s: Shape): real
    requires n > 0
  {
    Sum2(s.batch, s.columns, (b, c) => Times(ShardSum(ts, full, n, m, b, c), g(b, c)))
  }

  lemma PartialDotStep(ts: seq<Term>, full: Weights, g: Grads, n: nat, m: nat, s: Shape)
    requires n > 0
    ensures PartialDot(ts, full, g, n, m + 1, s)
         == PartialDot(ts, full, g, n, m, s) + PoolDot(ShardTerms(ts, n, m), ShardWeights(full, n, m), g, s)
  {
    hide Times, PoolAt, ShardTerms, ShardWeights;
    var before := (b: int, c: int) => Times(ShardSum(ts, full, n, m, b, c), g(b, c));
    var one := (b: int, c: int) => Times(PoolAt(ShardTerms(ts, n, m), ShardWeights(full, n, m), b, c), g(b, c));
    var after := (b: int, c: int) => Times(ShardSum(ts, full, n, m + 1, b, c), g(b, c));
    forall b, c | 0 <= b < s.batch && 0 <= c < s.columns ensures after(b, c) == before(b, c) + one(b, c) {
      ShardSumNext(ts, full, n, m, b, c);
      TimesPlus(ShardSum(ts, full, n, m, b, c), PoolAt(ShardTerms(ts, n, m), ShardWeights(full, n, m), b, c), g(b, c));
    }
    Sum2Add(s.batch, s.columns, before, one, after);
  }

  lemma {:induction false} PartialDotIsSum(ts: seq<Term>, full: Weights, g: Grads, n: nat, m: nat, s: Shape,
                                           f: int -> real)
    requires n > 0 && forall d :: 0 <= d < m ==> f(d) == PoolDot(ShardTerms(ts, n, d), ShardWeights(full, n, d), g, s)
    ensures PartialDot(ts, full, g, n, m, s) == Sum(m, f)
  {
    hide PartialDot, PoolDot, ShardTerms, ShardWeights, PoolAt, ShardSum, Times;
    if m == 0 {
      PartialDotStart(ts, full, g, n, s);
    } else {
      PartialDotIsSum(ts, full, g, n, m - 1, s, f);
      PartialDotStep(ts, full, g, n, m - 1, s);
      assert f(m - 1) == PoolDot(ShardTerms(ts, n, m - 1), ShardWeights(full, n, m - 1), g, s);
    }
  }

  lemma PartialDotStart(ts: seq<Term>, full: Weights, g: Grads, n: nat, s: Shape)
    requires n > 0
    ensures PartialDot(ts, full, g, n, 0, s) == 0.0
  {
    var none := (b: int, c: int) => Times(ShardSum(ts, full, n, 0, b, c), g(b, c));
    forall b, c | 0 <= b < s.batch && 0 <= c < s.columns ensures none(b, c) == 0.0 {
      TimesZero(g(b, c));
    }
    Sum2Zero(s.batch, s.columns, none);
  }

  /** Once all shards are in, the partial inner product is the whole one. */
  lemma PartialDotEnd(k: Kernel, entries: seq<Entry>, sorted: seq<Entry>, full: Weights, g: Grads, n: nat, s: Shape)
    requires n > 0 && multiset(sorted) == multiset(entries)
    ensures PartialDot(FullTerms(k, sorted), full, g, n, n, s) == PoolDot(FullTerms(k, entries), full, g, s)
  {
    hide PoolAt, ShardSum, FullTerms, Times;
    forall b, c | 0 <= b < s.batch && 0 <= c < s.columns
      ensures ShardSum(FullTerms(k, sorted), full, n, n, b, c) == PoolAt(FullTerms(k, entries), full, b, c)
    {
      ShardSumsToPool(k, entries, sorted, full, n, b, c);
    }
    Sum2Same(s.batch, s.columns, (b, c) => Times(ShardSum(FullTerms(k, sorted), full, n, n, b, c), g(b, c)),
             (b, c) => Times(PoolAt(FullTerms(k, entries), full, b, c), g(b, c)));
  }

  /** One shard's part of the gradient is the adjoint of its part of the pooling. */
  lemma ShardDotIsPoolDot(k: Kernel, sorted: seq<Entry>, shards: seq<Shard>, batch: nat, full: Weights, g: Grads,
                          d: nat, s: Shape)
    requires k.Usable() && AllConfigured(k, sorted) && InBatch(sorted, batch) && k.config.outputSize >= 0
    requires d < |shards| == k.numShards && ShardOk(k, ShardEntries(sorted, ShardFn(k), d), shards[d])
    requires s.batch == batch && s.columns == k.config.outputSize
    ensures ShardDot(k, shards, batch, full, g)(d)
         == PoolDot(ShardTerms(FullTerms(k, sorted), k.numShards, d), ShardWeights(full, k.numShards, d), g, s)
  {
    var es, sh := ShardEntries(sorted, ShardFn(k), d), shards[d];
    ShardInShape(k, es, batch, d, sh);
    ShardReadsItsShare(k, sorted, d);
    var own, ts := ShapeOf(k, batch, d, sh.uniqueCount), TermsOf(k, sh.instanceIds, sh.fids);
    hide TermsOf, Kernel.Usable, FullTerms, ShardTerms, SlicesDot, ShardWeights;
    GradientIsAdjoint(ts, sh.fidToUnique, ShardWeights(full, k.numShards, d), g, HashAt(sh.uniqueHash), own);
    assert PoolDot(ts, ShardWeights(full, k.numShards, d), g, own)
        == PoolDot(ts, ShardWeights(full, k.numShards, d), g, s);
  }

  /** The gradient of the whole sharded lookup: for all weights and output gradients, the inner product of the
      undivided pooling with the output gradient is the sum over the shards of the inner products of their rows with
      their gradient slices. */
  lemma ShardedGradientIsAdjoint(k: Kernel, entries: seq<Entry>, sorted: seq<Entry>, shards: seq<Shard>, batch: nat,
                                 full: Weights, g: Grads, s: Shape)
    requires k.Usable() && AllConfigured(k, entries) && InBatch(entries, batch) && k.config.outputSize >= 0
    requires multiset(sorted) == multiset(entries) && |shards| == k.numShards
    requires forall d :: 0 <= d < k.numShards ==> ShardOk(k, ShardEntries(sorted, ShardFn(k), d), shards[d])
    requires s.batch == batch && s.columns == k.config.outputSize
    ensures PoolDot(FullTerms(k, entries), full, g, s) == Sum(k.numShards, ShardDot(k, shards, batch, full, g))
  {
    SortedInBatch(k, entries, sorted, batch);
    var n, ts := k.numShards, FullTerms(k, sorted);
    assert n > 0;
    hide Kernel.Usable, AllConfigured, ShardOk, ShardDot, FullTerms, PoolAt, ShardTerms, InBatch, PoolDot, PartialDot,
         ShardEntries, ShardFn, ShardWeights;
    forall d | 0 <= d < n
      ensures ShardDot(k, shards, batch, full, g)(d) == PoolDot(ShardTerms(ts, n, d), ShardWeights(full, n, d), g, s)
    {
      ShardDotIsPoolDot(k, sorted, shards, batch, full, g, d, s);
    }
    PartialDotIsSum(ts, full, g, n, n, s, ShardDot(k, shards, batch, full, g));
    PartialDotEnd(k, entries, sorted, full, g, n, s);
  }
}
