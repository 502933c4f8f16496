/** The queue of item batches between one producer and the sync leader, with a remembered place in it. */
module ItemBatchQueue {
  import opened Wrappers

  datatype Batch = Batch(begin: nat, size: nat) {
    function End(): nat { begin + size }
  }

  /** Non-empty batches, one after the other. */
  ghost predicate Consecutive(q: seq<Batch>) {
    && (forall i :: 0 <= i < |q| ==> q[i].size > 0)
    && (forall i :: 0 <= i < |q| - 1 ==> Adjacent(q, i))
  }

  ghost predicate Adjacent(q: seq<Batch>, i: int) {
    0 <= i < |q| - 1 && q[i].End() == q[i + 1].begin
  }

  function Items(q: seq<Batch>): nat {
    if q == [] then 0 else Items(q[..|q| - 1]) + q[|q| - 1].size
  }

  /** The batch ends at or before the index. */
  predicate Stale(b: Batch, index: Option<nat>) {
    index.Some? && b.End() - 1 <= index.value
  }

  /** Exactly the first `n` batches are stale. */
  ghost predicate StaleAre(q: seq<Batch>, n: nat, index: Option<nat>) {
    n <= |q| && forall i :: 0 <= i < |q| ==> (i < n <==> Stale(q[i], index))
  }

  /** Every batch ends at or before the index after `last`. */
  ghost predicate UpTo(q: seq<Batch>, last: int) {
    forall i :: 0 <= i < |q| ==> q[i].End() - 1 <= last
  }

  lemma SuffixKeeps(q: seq<Batch>, n: nat)
    requires Consecutive(q) && n <= |q|
    ensures Consecutive(q[n..]) && forall last :: UpTo(q, last) ==> UpTo(q[n..], last)
  {
    forall i | 0 <= i < |q[n..]| - 1 ensures Adjacent(q[n..], i) {
      assert Adjacent(q, n + i);
    }
  }

  lemma AppendKeeps(q: seq<Batch>, b: Batch)
    requires Consecutive(q) && b.size > 0 && (q != [] ==> q[|q| - 1].End() == b.begin)
    ensures Consecutive(q + [b])
  {
    forall i | 0 <= i < |q| ensures Adjacent(q + [b], i) {
      if i < |q| - 1 {
        assert Adjacent(q, i);
      }
    }
  }

  /** Batches before the first fresh one are the stale ones. */
  lemma FirstFresh(q: seq<Batch>, n: nat, index: Option<nat>)
    requires Consecutive(q) && n <= |q| && (n < |q| ==> !Stale(q[n], index))
    requires forall i :: 0 <= i < n ==> Stale(q[i], index)
    ensures StaleAre(q, n, index)
  {
    forall i | n < i < |q| ensures !Stale(q[i], index) {
      BeginsIncrease(q, n, i);
      assert q[i].size > 0;
    }
  }

  lemma {:induction false} BeginsIncrease(q: seq<Batch>, i: nat, j: nat)
    requires Consecutive(q) && i < j < |q|
    ensures q[i].End() <= q[j].begin
    decreases j
  {
    if i < j - 1 {
      BeginsIncrease(q, i, j - 1);
    }
    assert Adjacent(q, j - 1);
  }

  lemma {:induction false} ItemsWithoutFirst(q: seq<Batch>)
    requires q != []
    ensures Items(q) == q[0].size + Items(q[1..])
  {
    if |q| > 1 {
      ItemsWithoutFirst(q[..|q| - 1]);
      assert q[1..][..|q| - 2] == q[..|q| - 1][1..];
    }
  }

  /** A batch that starts at `next` is queued. */
  ghost predicate Queued(q: seq<Batch>, next: nat) {
    exists i :: 0 <= i < |q| && q[i].begin == next
  }

  /** What a fetch answers: the producer is done, the batch if there is one, and where to look next time. */
  datatype Fetched = Fetched(finished: bool, batch: Option<Batch>, hint: Option<nat>)

  class ItemBatchSeqProcessor {
    var queue: seq<Batch>
    var flyingItems: nat
    var inputFinished: bool
    var processFinished: bool
    /** Index of the last item produced; -1 after an empty first batch. */
    var lastIndex: Option<int>

    ghost predicate Valid()
      reads this
    {
      Consecutive(queue) && flyingItems == Items(queue)
    }

    lemma ValidIsConsecutive()
      requires Valid()
      ensures Consecutive(queue)
    {
    }

    /** The last index covers everything queued, as it does between two appends of the producer. */
    ghost predicate Recorded()
      reads this
    {
      queue == [] || (lastIndex.Some? && UpTo(queue, lastIndex.value))
    }

    constructor ()
      ensures Valid() && queue == [] && !inputFinished && !processFinished && lastIndex == None
    {
      queue, flyingItems, inputFinished, processFinished, lastIndex := [], 0, false, false, None;
    }

    /** `bisect_left` on the begin indices. */
    function BisectLeft(next: nat, i: nat): (r: nat)
      requires i <= |queue|
      reads this
      ensures i <= r <= |queue| && (forall k :: i <= k < r ==> queue[k].begin < next)
      ensures r < |queue| ==> queue[r].begin >= next
      decreases |queue| - i
    {
      if i == |queue| || queue[i].begin >= next then i else BisectLeft(next, i + 1)
    }

    /** The place found holds the batch that starts at `next`, if any does. */
    lemma BisectFinds(next: nat)
      requires Consecutive(queue)
      ensures var i := BisectLeft(next, 0); Queued(queue, next) <==> i < |queue| && queue[i].begin == next
    {
      var i := BisectLeft(next, 0);
      if Queued(queue, next) {
        var k :| 0 <= k < |queue| && queue[k].begin == next;
        if k > i {
          BeginsIncrease(queue, i, k);
        }
      }
    }

    /** When a fetch reports that the producer is done: beyond the last index, or at a place behind the beginning of
        the last queued batch that is not beyond its end, or, with a hint beyond the queue, at any place from that end
        on. */
    predicate FinishedAt(n: nat, hint: Option<nat>)
      reads this
    {
      processFinished &&
      (|| (lastIndex.Some? && lastIndex.value < n)
       || (queue != [] &&
           var last := queue[|queue| - 1];
           (last.begin < n <= last.End()) || (hint.Some? && hint.value >= |queue| && n >= last.End())))
    }

    /** `fetch_item_batch_by_index`: whatever the hint, the batch that starts at `next` exactly when one is queued. */
    method Fetch(next: Option<nat>, hint: Option<nat>) returns (r: Fetched)
      requires Valid() && (processFinished ==> Recorded())
      ensures r.batch.Some? <==> next.Some? && Queued(queue, next.value)
      ensures r.batch.Some? ==> && r.batch.value in queue && r.batch.value.begin == next.value && !r.finished
                                && r.hint.Some? && r.hint.value < |queue| && queue[r.hint.value] == r.batch.value
      ensures r.finished <==> next.Some? && FinishedAt(next.value, hint)
      ensures r.batch.None? && r.hint.Some? && next.Some? ==> r.hint.value >= |queue|
      ensures next.None? ==> r.hint == hint
    {
      if next.None? {
        return Fetched(false, None, hint);
      }
      var n := next.value;
      if processFinished && lastIndex.Some? && lastIndex.value < n {
        return Fetched(true, None, None);
      }
      if |queue| == 0 {
        return Fetched(false, None, Some(0));
      }
      var last := queue[|queue| - 1];
      if hint.Some? {
        if hint.value < |queue| {
          if queue[hint.value].begin == n {
            if hint.value < |queue| - 1 {
              BeginsIncrease(queue, hint.value, |queue| - 1);
            }
            return Fetched(false, Some(queue[hint.value]), hint);
          }
        } else if n >= last.End() {
          assert !Queued(queue, n) by {
            NotBeyond(n);
          }
          return Fetched(processFinished, None, hint);
        }
      }
      BisectFinds(n);
      var i := BisectLeft(n, 0);
      if i < |queue| - 1 {
        BeginsIncrease(queue, i, |queue| - 1);
      }
      if i == |queue| {
        if last.End() >= n {
          return Fetched(processFinished, None, Some(|queue|));
        }
      } else if queue[i].begin == n {
        return Fetched(false, Some(queue[i]), Some(i));
      }
      return Fetched(false, None, None);
    }

    lemma NotBeyond(n: nat)
      requires Consecutive(queue) && queue != [] && n >= queue[|queue| - 1].End()
      ensures !Queued(queue, n)
    {
      forall k | 0 <= k < |queue| ensures queue[k].begin != n {
        if k < |queue| - 1 {
          BeginsIncrease(queue, k, |queue| - 1);
        }
      }
    }

    /** `evict_staless_item_batch`: drops the batches that end at or before the index. */
    method Evict(stale: Option<nat>) returns (skipped: nat)
      requires Valid()
      modifies this`queue, this`flyingItems
      ensures Valid() && skipped <= |old(queue)| && queue == old(queue)[skipped..]
      ensures old(Recorded()) ==> Recorded()
      ensures StaleAre(old(queue), skipped, stale)
    {
      skipped := 0;
      while |queue| > skipped && Stale(queue[skipped], stale)
        invariant queue == old(queue) && 0 <= skipped <= |queue| && flyingItems == Items(queue[skipped..])
        invariant forall i :: 0 <= i < skipped ==> Stale(queue[i], stale)
        decreases |queue| - skipped
      {
        ItemsWithoutFirst(queue[skipped..]);
        assert queue[skipped..][1..] == queue[skipped + 1..];
        flyingItems := flyingItems - queue[skipped].size;
        skipped := skipped + 1;
      }
      hide *;
      FirstFresh(queue, skipped, stale);
      SuffixKeeps(queue, skipped);
      queue := queue[skipped..];
    }

    /** `_append_next_item_batch`; the fatal branch is a false answer. */
    method Append(b: Batch) returns (ok: bool)
      requires Valid() && b.size > 0
      modifies this`queue, this`flyingItems
      ensures Valid() && ok == (old(queue) == [] || old(queue)[|old(queue)| - 1].End() == b.begin)
      ensures queue == if ok then old(queue) + [b] else old(queue)
    {
      if |queue| > 0 {
        if queue[|queue| - 1].End() != b.begin {
          return false;
        }
      }
      AppendKeeps(queue, b);
      assert (queue + [b])[..|queue|] == queue;
      queue := queue + [b];
      flyingItems := flyingItems + b.size;
      return true;
    }

    method UpdateLastIndex(index: int)
      requires Valid()
      modifies this`lastIndex
      ensures Valid()
      ensures lastIndex == if old(lastIndex).Some? && old(lastIndex).value >= index then old(lastIndex) else Some(index)
    {
      if lastIndex.None? || index > lastIndex.value {
        lastIndex := Some(index);
      }
    }

    /** `_check_index_rollback`. */
    method CheckRollback(next: nat) returns (rollback: bool)
      requires Valid()
      ensures rollback == (queue == [] || (next != queue[|queue| - 1].End() && !Queued(queue, next)))
    {
      if |queue| == 0 {
        return true;
      }
      if next == queue[|queue| - 1].End() {
        return false;
      }
      BisectFinds(next);
      var i := BisectLeft(next, 0);
      if i == |queue| {
        return next != queue[|queue| - 1].End();
      }
      return queue[i].begin != next;
    }

    method SetInputFinished()
      requires Valid()
      modifies this`inputFinished
      ensures Valid() && inputFinished && (old(Recorded()) ==> Recorded())
    {
      inputFinished := true;
    }

    /** `_set_process_finished`, at the end of a round that used up a finished input. */
    method SetProcessFinished()
      requires Valid() && inputFinished
      modifies this`processFinished
      ensures Valid() && processFinished && (old(Recorded()) ==> Recorded())
    {
      processFinished := true;
    }

    /** The start of `make_processor`: where the producer goes on.  Everything queued stays queued unless the peer asks
        for something that is neither queued nor next. */
    method StartProducing(next: nat) returns (from: nat)
      requires Valid()
      modifies this`queue, this`flyingItems
      ensures Valid()
      ensures var keep := old(queue) != [] && (next == old(queue)[|old(queue)| - 1].End() || Queued(old(queue), next));
              queue == (if keep then old(queue) else []) && from == if keep then queue[|queue| - 1].End() else next
    {
      var rollback := CheckRollback(next);
      if rollback {
        queue, flyingItems := [], 0;
      }
      from := next;
      if |queue| > 0 {
        from := queue[|queue| - 1].End();
      }
    }

    /** One round of the only producer: the generator's batches, empty ones among them, follow each other from where the
        round starts, and between any two of them the leader may evict.  The fatal branch is never taken. */
    method ProduceRound(next: nat, batches: seq<Batch>, evictions: seq<Option<nat>>) returns (ok: bool)
      requires Valid() && Recorded() && |evictions| == |batches|
      requires forall i :: 0 <= i < |batches| - 1 ==> Adjacent(batches, i)
      requires batches != [] ==>
                 batches[0].begin == if queue != [] && (next == queue[|queue| - 1].End() || Queued(queue, next))
                                     then queue[|queue| - 1].End() else next
      modifies this`queue, this`flyingItems, this`lastIndex
      ensures Valid() && Recorded() && ok
    {
      var from := StartProducing(next);
      ok := true;
      hide UpTo, Items;
      for i := 0 to |batches|
        invariant Valid() && Recorded() && ok
        invariant queue != [] ==> queue[|queue| - 1].End() == if i == 0 then from else batches[i - 1].End()
      {
        assert i > 0 ==> Adjacent(batches, i - 1);
        var _ := Evict(evictions[i]);
        ok := ProduceOne(batches[i]);
      }
    }

    /** One batch of a round; an empty one is not queued. */
    method ProduceOne(b: Batch) returns (ok: bool)
      requires Valid() && Recorded() && (queue != [] ==> queue[|queue| - 1].End() == b.begin)
      modifies this`queue, this`flyingItems, this`lastIndex
      ensures Valid() && Recorded() && ok && (queue != [] ==> queue[|queue| - 1].End() == b.End())
      ensures queue == if b.size > 0 then old(queue) + [b] else old(queue)
      ensures lastIndex == if old(lastIndex).Some? && old(lastIndex).value >= b.End() - 1 then old(lastIndex)
                           else Some(b.End() - 1)
    {
      hide Consecutive, Items;
      ok := true;
      if b.size > 0 {
        ok := Append(b);
      }
      UpdateLastIndex(b.End() - 1);
    }
  }

  // ---------------------------------------------------------------- a producer and its peer

  function EndOf(q: seq<Batch>): nat {
    if q == [] then 0 else q[|q| - 1].End()
  }

  /** The queue is the end of what was produced, what was fetched the beginning, and nothing in between is missing. */
  ghost predicate Aligned(produced: seq<Batch>, fetched: seq<Batch>, evicted: nat, queue: seq<Batch>,
                          lastIndex: Option<int>)
  {
    && Consecutive(produced) && (produced != [] ==> produced[0].begin == 0)
    && evicted <= |fetched| <= |produced| && fetched == produced[..|fetched|] && queue == produced[evicted..]
    && (lastIndex.None? ==> produced == [])
    && (lastIndex.Some? ==> lastIndex.value == EndOf(produced) - 1)
  }

  /** The next batch, which may be empty, and the last index it brings about. */
  lemma AlignedProduce(produced: seq<Batch>, fetched: seq<Batch>, evicted: nat, queue: seq<Batch>,
                       lastIndex: Option<int>, b: Batch)
    requires Aligned(produced, fetched, evicted, queue, lastIndex) && b.begin == EndOf(produced)
    ensures lastIndex.Some? && lastIndex.value >= b.End() - 1 ==> lastIndex.value == b.End() - 1
    ensures if b.size > 0 then Aligned(produced + [b], fetched, evicted, queue + [b], Some(b.End() - 1))
            else Aligned(produced, fetched, evicted, queue, Some(b.End() - 1))
  {
    if b.size > 0 {
      AppendKeeps(produced, b);
      assert (produced + [b])[evicted..] == produced[evicted..] + [b];
      assert (produced + [b])[..|fetched|] == produced[..|fetched|];
    }
  }

  lemma AlignedFetch(produced: seq<Batch>, fetched: seq<Batch>, evicted: nat, queue: seq<Batch>, lastIndex: Option<int>)
    requires Aligned(produced, fetched, evicted, queue, lastIndex) && |fetched| < |produced|
    ensures Aligned(produced, fetched + [produced[|fetched|]], evicted, queue, lastIndex)
  {
    assert produced[..|fetched| + 1] == produced[..|fetched|] + [produced[|fetched|]];
  }

  /** What is not fetched yet starts at or after the index asked for. */
  lemma NotYetFetched(produced: seq<Batch>, fetched: seq<Batch>, i: nat)
    requires Consecutive(produced) && fetched <= produced && |fetched| <= i < |produced|
    ensures produced[i].begin >= EndOf(fetched) && produced[i].size > 0
  {
    if fetched != [] {
      BeginsIncrease(produced, |fetched| - 1, i);
    }
  }

  lemma AlignedEvict(produced: seq<Batch>, fetched: seq<Batch>, evicted: nat, queue: seq<Batch>, lastIndex: Option<int>,
                     skipped: nat, dumped: Option<nat>)
    requires Aligned(produced, fetched, evicted, queue, lastIndex) && StaleAre(queue, skipped, dumped)
    requires dumped.Some? ==> dumped.value < EndOf(fetched)
    ensures Aligned(produced, fetched, evicted + skipped, queue[skipped..], lastIndex)
    ensures skipped > 0 ==> dumped.Some? && EndOf(produced[..evicted + skipped]) <= dumped.value + 1
  {
    if skipped > 0 {
      var last := evicted + skipped - 1;
      assert queue[skipped - 1] == produced[last] && Stale(queue[skipped - 1], dumped);
      if last >= |fetched| {
        NotYetFetched(produced, fetched, last);
      }
    }
  }

  lemma AlignedRestart(produced: seq<Batch>, fetched: seq<Batch>, evicted: nat, queue: seq<Batch>,
                       lastIndex: Option<int>, kept: nat)
    requires Aligned(produced, fetched, evicted, queue, lastIndex) && evicted <= kept <= |fetched|
    ensures Aligned(produced, fetched[..kept], evicted, queue, lastIndex)
  {
    assert fetched[..kept] == produced[..kept];
  }

  /** A producer without a rollback and a peer that fetches batch after batch, from index 0 on.  All batches produced
      and all that the peer has are kept for the record; `evicted` of them are gone from the queue. */
  class Session {
    const fetcher: ItemBatchSeqProcessor
    var produced: seq<Batch>
    var fetched: seq<Batch>
    var evicted: nat

    ghost predicate InStep()
      reads this, fetcher
    {
      fetcher.Valid() && Aligned(produced, fetched, evicted, fetcher.queue, fetcher.lastIndex)
    }

    constructor ()
      ensures InStep() && produced == [] && fetched == [] && fresh(fetcher)
      ensures !fetcher.processFinished && !fetcher.inputFinished
    {
      fetcher := new ItemBatchSeqProcessor();
      produced, fetched, evicted := [], [], 0;
    }

    lemma InTurn()
      requires InStep()
      ensures Consecutive(produced) && (produced != [] ==> produced[0].begin == 0)
      ensures fetched <= produced && evicted <= |fetched|
    {
    }

    /** The next batch to fetch is queued, and it is the one that starts at the index asked for. */
    lemma NextIsQueued()
      requires InStep()
      ensures |fetched| < |produced| ==>
                Queued(fetcher.queue, EndOf(fetched)) && produced[|fetched|].begin == EndOf(fetched)
      ensures |fetched| == |produced| ==> EndOf(fetched) == EndOf(produced) && !Queued(fetcher.queue, EndOf(fetched))
      ensures forall i :: evicted <= i < |produced| && produced[i].begin == EndOf(fetched) ==> i == |fetched|
    {
      var k := |fetched|;
      if k < |produced| {
        assert fetcher.queue[k - evicted] == produced[k];
        if k > 0 {
          assert Adjacent(produced, k - 1);
        }
      } else {
        assert produced[..k] == produced;
      }
      forall i | 0 <= i < |produced| && i != k ensures produced[i].begin != EndOf(fetched) {
        if i > k {
          BeginsIncrease(produced, k, i);
        } else {
          assert fetched[k - 1] == produced[k - 1];
          if i < k - 1 {
            BeginsIncrease(produced, i, k - 1);
          }
        }
      }
    }

    lemma QueueRecorded()
      requires InStep()
      ensures fetcher.Valid() && fetcher.Recorded()
      ensures fetcher.queue != [] ==> fetcher.queue[|fetcher.queue| - 1].End() == EndOf(produced)
    {
      forall i | 0 <= i < |fetcher.queue| ensures fetcher.queue[i].End() - 1 <= EndOf(produced) - 1 {
        assert fetcher.queue[i] == produced[evicted + i];
        if evicted + i < |produced| - 1 {
          BeginsIncrease(produced, evicted + i, |produced| - 1);
        }
      }
    }

    /** A new round of the producer: nothing is thrown away, and it goes on where it stopped. */
    method StartRound() returns (from: nat)
      requires InStep()
      modifies fetcher
      ensures InStep() && from == EndOf(produced) && fetcher.processFinished == old(fetcher.processFinished)
    {
      NextIsQueued();
      QueueRecorded();
      from := fetcher.StartProducing(EndOf(fetched));
    }

    /** What the producer has just appended. */
    lemma HasProduced(before: seq<Batch>, queue: seq<Batch>, lastIndex: Option<int>, b: Batch)
      requires Aligned(before, fetched, evicted, queue, lastIndex) && fetcher.Valid() && b.begin == EndOf(before)
      requires produced == if b.size > 0 then before + [b] else before
      requires fetcher.queue == if b.size > 0 then queue + [b] else queue
      requires fetcher.lastIndex == if lastIndex.Some? && lastIndex.value >= b.End() - 1 then lastIndex
                                    else Some(b.End() - 1)
      ensures InStep()
    {
      AlignedProduce(before, fetched, evicted, queue, lastIndex, b);
      hide Consecutive, EndOf, Items;
    }

    method Produce(size: nat) returns (ok: bool)
      requires InStep()
      modifies this`produced, fetcher
      ensures InStep() && ok && fetcher.processFinished == old(fetcher.processFinished)
      ensures produced == if size > 0 then old(produced) + [Batch(EndOf(old(produced)), size)] else old(produced)
    {
      QueueRecorded();
      ghost var before, queue, lastIndex := produced, fetcher.queue, fetcher.lastIndex;
      assert Aligned(before, fetched, evicted, queue, lastIndex);
      hide *;
      var b := Batch(EndOf(produced), size);
      ok := fetcher.ProduceOne(b);
      produced := if size > 0 then produced + [b] else produced;
      HasProduced(before, queue, lastIndex, b);
    }

    method Finish()
      requires InStep()
      modifies fetcher
      ensures InStep() && fetcher.processFinished
    {
      fetcher.SetInputFinished();
      fetcher.SetProcessFinished();
    }

    /** The leader fetches what the peer asks for; when sending it fails, the peer asks for the same again.  The peer is
        told that the producer is done exactly when it is, and the peer has every batch produced. */
    method Fetch(hint: Option<nat>, sent: bool) returns (r: Fetched)
      requires InStep()
      modifies this`fetched
      ensures InStep()
      ensures r.batch == if |old(fetched)| < |produced| then Some(produced[|old(fetched)|]) else None
      ensures fetched == if sent && r.batch.Some? then old(fetched) + [r.batch.value] else old(fetched)
      ensures r.finished <==> fetcher.processFinished && fetcher.lastIndex.Some? && old(fetched) == produced
    {
      NextIsQueued();
      QueueRecorded();
      r := fetcher.Fetch(Some(EndOf(fetched)), hint);
      if r.batch.Some? {
        assert r.batch.value == produced[|fetched|] by {
          var i :| 0 <= i < |fetcher.queue| && fetcher.queue[i] == r.batch.value;
          assert fetcher.queue[i] == produced[evicted + i];
        }
        AlignedFetch(produced, fetched, evicted, fetcher.queue, fetcher.lastIndex);
        if sent {
          fetched := fetched + [r.batch.value];
        }
      }
    }

    /** The peer restarts and has kept its first `kept` batches, among them all that are evicted. */
    method RestartPeer(kept: nat)
      requires InStep() && evicted <= kept <= |fetched|
      modifies this`fetched
      ensures InStep() && fetched == old(fetched)[..kept]
    {
      AlignedRestart(produced, fetched, evicted, fetcher.queue, fetcher.lastIndex, kept);
      fetched := fetched[..kept];
    }

    /** The leader evicts what the peer has dumped, which is part of what it has fetched. */
    method Evict(dumped: Option<nat>)
      requires InStep() && (dumped.Some? ==> dumped.value < EndOf(fetched))
      modifies fetcher, this`evicted
      ensures InStep() && fetcher.processFinished == old(fetcher.processFinished) && old(evicted) <= evicted
      ensures evicted > old(evicted) ==> dumped.Some? && EndOf(produced[..evicted]) <= dumped.value + 1
    {
      ghost var q := fetcher.queue;
      assert Aligned(produced, fetched, evicted, q, fetcher.lastIndex);
      hide *;
      var skipped := fetcher.Evict(dumped);
      AlignedEvict(produced, fetched, evicted, q, fetcher.lastIndex, skipped, dumped);
      evicted := evicted + skipped;
    }
  }

  datatype Turn =
    | StartRound
    | Produce(size: nat)
    | Finish
    | Fetch(hint: Option<nat>, sent: bool)
    | Evict(dumped: Option<nat>)
    | RestartPeer(kept: nat)

  /** Any interleaving of the producer and the leader, whatever the hints, with failing sends and restarts of the peer:
      the fatal branch is never taken, what the peer has is the beginning of what was produced, the peer gets exactly
      the next batch whenever there is one, and "finished" is never said too early or withheld. */
  method Exchange(turns: seq<Turn>) returns (produced: seq<Batch>, fetched: seq<Batch>, ok: bool, exact: bool)
    ensures Consecutive(produced) && fetched <= produced && ok && exact
  {
    var s := new Session();
    ok, exact := true, true;
    for i := 0 to |turns|
      invariant s.InStep() && fresh(s) && fresh(s.fetcher) && ok && exact
    {
      match turns[i]
      case StartRound =>
        var _ := s.StartRound();
      case Produce(size) =>
        ok := s.Produce(size);
      case Finish =>
        s.Finish();
      case Fetch(hint, sent) =>
        var n := |s.fetched|;
        var r := s.Fetch(hint, sent);
        exact := && r.batch == (if n < |s.produced| then Some(s.produced[n]) else None)
                 && r.finished == (s.fetcher.processFinished && s.fetcher.lastIndex.Some? && n == |s.produced|);
      case Evict(dumped) =>
        if dumped.None? || dumped.value < EndOf(s.fetched) {
          s.Evict(dumped);
        }
      case RestartPeer(kept) =>
        if s.evicted <= kept <= |s.fetched| {
          s.RestartPeer(kept);
        }
    }
    produced, fetched := s.produced, s.fetched;
  }

  /** Two batches are produced, production ends, and both are evicted. */
  method ProduceTwo() returns (p: ItemBatchSeqProcessor)
    ensures fresh(p) && p.Valid() && p.queue == [] && p.lastIndex == Some(3) && p.processFinished
  {
    p := new ItemBatchSeqProcessor();
    var _ := p.ProduceOne(Batch(0, 2));
    assert p.queue == [Batch(0, 2)];
    var _ := p.ProduceOne(Batch(2, 2));
    p.SetInputFinished();
    p.SetProcessFinished();
    hide Consecutive, Items, UpTo;
    var skipped := p.Evict(Some(3));
    assert skipped == 2;
  }

  /** After a rollback it is said too early: the end of production is never taken back, so the end of what has been
      produced again counts as the end of everything. */
  method RollbackFinishesEarly() returns (r: Fetched, p: ItemBatchSeqProcessor)
    ensures r.finished && r.batch.None? && p.queue == [Batch(0, 2)] && p.lastIndex == Some(3)
  {
    p := ProduceTwo();
    var from := p.StartProducing(0);
    var _ := p.ProduceOne(Batch(from, 2));
    r := p.Fetch(Some(2), None);
  }

  // ---------------------------------------------------------------- the leader's place

  predicate StaleAfter(q: seq<Batch>, i: int, dumped: Option<nat>) {
    0 <= i < |q| - 1 && Stale(q[i + 1], dumped)
  }

  /** The batch behind the one at `next` is evicted, or the place kept for a peer without an index is. */
  ghost predicate PlaceIsEvicted(q: seq<Batch>, next: Option<nat>, hint: Option<int>, dumped: Option<nat>) {
    if next.Some? then exists i :: StaleAfter(q, i, dumped) && q[i].begin == next.value
    else hint.Some? && 0 <= hint.value < |q| && Stale(q[hint.value], dumped)
  }

  /** The place is the one behind the batch. */
  ghost predicate PointsBehind(q: seq<Batch>, hint: Option<int>, b: Batch) {
    hint.Some? && 0 < hint.value <= |q| && q[hint.value - 1] == b
  }

  /** The place as the fetcher takes it. */
  function Place(hint: Option<int>): Option<nat> {
    if hint.Some? && hint.value >= 0 then Some(hint.value as nat) else None
  }

  lemma PlaceOf(hint: Option<int>)
    requires hint.Some? ==> hint.value >= 0
    ensures Place(hint).Some? <==> hint.Some?
    ensures hint.Some? ==> Place(hint).value == hint.value
  {
  }

  /** Exactly the stale batches are gone. */
  ghost predicate Evicted(before: seq<Batch>, after: seq<Batch>, dumped: Option<nat>) {
    var n := |before| - |after|;
    n >= 0 && after == before[n..] && StaleAre(before, n, dumped)
  }

  lemma EvictedBy(before: seq<Batch>, n: nat, dumped: Option<nat>)
    requires StaleAre(before, n, dumped)
    ensures Evicted(before, before[n..], dumped)
  {
  }

  class SyncLeader {
    const fetcher: ItemBatchSeqProcessor
    var hint: Option<int>

    constructor (fetcher: ItemBatchSeqProcessor)
      ensures this.fetcher == fetcher && hint == None
    {
      this.fetcher, hint := fetcher, None;
    }

    /** `get_sync_content_by_next_index`, with the fetch and the eviction as one step.  The place kept for next time is
        negative exactly when the batch it should name is evicted; in particular never when the peer has dumped only
        what comes before the index it asks for.  After a batch was found that is still queued, it is the place behind
        it. */
    method GetSyncContent(next: Option<nat>, dumped: Option<nat>) returns (finished: bool, batch: Option<Batch>)
      requires fetcher.Valid() && (fetcher.processFinished ==> fetcher.Recorded()) && (hint.Some? ==> hint.value >= 0)
      modifies this`hint, fetcher
      ensures fetcher.Valid() && (old(fetcher.Recorded()) ==> fetcher.Recorded())
      ensures batch.Some? <==> next.Some? && Queued(old(fetcher.queue), next.value)
      ensures batch.Some? ==> batch.value in old(fetcher.queue) && batch.value.begin == next.value
      ensures hint.Some? ==> (hint.value < 0 <==> PlaceIsEvicted(old(fetcher.queue), next, old(hint), dumped))
      ensures (dumped.Some? ==> next.Some? && dumped.value < next.value) && hint.Some? ==> hint.value >= 0
      ensures batch.Some? && !Stale(batch.value, dumped) ==>
                PointsBehind(fetcher.queue, hint, batch.value)
      ensures finished <==> next.Some? && old(fetcher.FinishedAt(next.value, Place(hint)))
      ensures Evicted(old(fetcher.queue), fetcher.queue, dumped)
    {
      hide *;
      ghost var q, place := fetcher.queue, hint;
      fetcher.ValidIsConsecutive();
      PlaceOf(hint);
      var r := fetcher.Fetch(next, Place(hint));
      var skipped := fetcher.Evict(dumped);
      EvictedBy(q, skipped, dumped);
      var moved := if r.hint.None? then None else Some(r.hint.value - skipped + if r.batch.None? then 0 else 1);
      NothingFresh(q, next, place, dumped);
      PlaceAfter(q, skipped, next, place, dumped, r, moved);
      hint := moved;
      return r.finished, r.batch;
    }
  }

  /** Where the place ends up once the evicted batches are gone. */
  lemma PlaceAfter(q: seq<Batch>, skipped: nat, next: Option<nat>, hint: Option<int>, dumped: Option<nat>, r: Fetched,
                   after: Option<int>)
    requires Consecutive(q) && StaleAre(q, skipped, dumped) && (hint.Some? ==> hint.value >= 0)
    requires r.batch.Some? <==> next.Some? && Queued(q, next.value)
    requires r.batch.Some? ==> && r.batch.value.begin == next.value && r.hint.Some? && r.hint.value < |q|
                               && q[r.hint.value] == r.batch.value
    requires r.batch.None? && r.hint.Some? && next.Some? ==> r.hint.value >= |q|
    requires next.None? ==> hint.Some? == r.hint.Some? && (hint.Some? ==> hint.value == r.hint.value)
    requires after == if r.hint.None? then None
                      else Some(r.hint.value - skipped + if r.batch.None? then 0 else 1)
    ensures after.Some? ==> (after.value < 0 <==> PlaceIsEvicted(q, next, hint, dumped))
    ensures r.batch.Some? && !Stale(r.batch.value, dumped) ==>
              PointsBehind(q[skipped..], after, r.batch.value)
  {
    if r.batch.Some? {
      SkippedBeyond(q, skipped, dumped, r.hint.value, next.value);
    }
  }

  /** How many batches go, seen from the batch found. */
  lemma SkippedBeyond(q: seq<Batch>, skipped: nat, dumped: Option<nat>, i: nat, next: nat)
    requires Consecutive(q) && i < |q| && q[i].begin == next && StaleAre(q, skipped, dumped)
    ensures skipped > i + 1 <==> exists j :: StaleAfter(q, j, dumped) && q[j].begin == next
    ensures skipped > i <==> Stale(q[i], dumped)
  {
    forall j | 0 <= j < |q| && q[j].begin == next ensures j == i {
      if j < i {
        BeginsIncrease(q, j, i);
      } else if i < j {
        BeginsIncrease(q, i, j);
      }
    }
    if skipped > i + 1 {
      assert StaleAfter(q, i, dumped);
    }
  }

  /** What the peer asks for, and what comes after it, is not evicted while only earlier items are dumped. */
  lemma NothingFresh(q: seq<Batch>, next: Option<nat>, hint: Option<int>, dumped: Option<nat>)
    requires Consecutive(q)
    ensures (dumped.Some? ==> next.Some? && dumped.value < next.value) ==> !PlaceIsEvicted(q, next, hint, dumped)
  {
    if (dumped.Some? ==> next.Some? && dumped.value < next.value) && next.Some? {
      forall i | 0 <= i < |q| - 1 && q[i].begin == next.value ensures !StaleAfter(q, i, dumped) {
        assert Adjacent(q, i) && q[i].size > 0 && q[i + 1].size > 0;
      }
    }
  }
}
