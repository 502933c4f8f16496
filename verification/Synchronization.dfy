/** The sync leader and a peer that dumps what it gets, end to end: from the leader's items to the peer's files. */
module Synchronization {
  import opened Concatenation
  import opened Wrappers
  import D = ExampleIdDumper
  import Q = ItemBatchQueue

  /** `get_dumped_index`; none stands for -1, at which nothing is stale either. */
  function DumpedIndex(anchor: Option<D.Anchor>): Option<nat> {
    if anchor.None? then None else Some(anchor.value.end)
  }

  /** The peer takes nothing new meanwhile. */
  predicate AcceptsNothing(actions: seq<D.Action>) {
    forall a :: a in actions ==> !a.Accept?
  }

  // ---------------------------------------------------------------- the peer between two batches

  /** The peer dumps on or restarts: it keeps everything up to its anchor, and a beginning of what it has. */
  ghost predicate Goes(s: D.System, s': D.System) {
    && D.NextIndex(s.anchor) <= D.NextIndex(s'.anchor) <= s'.nextIndex <= s.nextIndex <= |s.accepted|
    && s'.accepted == s.accepted[..s'.nextIndex]
  }

  /** Where the anchor and the flying batches of the peer end is in `edges`. */
  ghost predicate Edged(s: D.System, edges: set<nat>) {
    D.NextIndex(s.anchor) in edges && s.nextIndex in edges && forall b :: b in s.flying ==> b.End() in edges
  }

  lemma AnchorWithin(s: D.System, o: D.Options)
    requires D.Consistent(s, o)
    ensures D.NextIndex(s.anchor) <= |s.accepted| == s.nextIndex && s.accepted == s.accepted[..s.nextIndex]
  {
    hide D.FilesOk, D.FlyingOk, D.StageOk;
  }

  lemma {:induction false} EvictKeeps(flying: seq<D.Batch>, next: nat)
    requires D.Evict(flying, next).Some?
    ensures forall b :: b in D.Evict(flying, next).value ==> b in flying
  {
    if flying != [] && flying[0].End() <= next {
      EvictKeeps(flying[1..], next);
    }
  }

  /** The dumper writes whole batches. */
  lemma DumpedToEdge(flying: seq<D.Batch>, base: nat, k: nat)
    requires D.Chained(flying, base) && 0 < k <= |flying|
    ensures base + |D.Ids(flying[..k])| == flying[k - 1].End() && flying[k - 1] in flying
  {
    D.ChainedAt(flying, base, k - 1);
  }

  lemma AnchorGoes(s: D.System, due: bool, o: D.Options, edges: set<nat>)
    requires D.Consistent(s, o) && Edged(s, edges) && s.stage.Anchoring?
    ensures var s' := D.Step(s, D.Proceed(due), o); Edged(s', edges) && D.NextIndex(s.anchor) <= D.NextIndex(s'.anchor)
  {
    var base, d := D.Base(s.flying, s.nextIndex), s.dumper.value;
    DumpedToEdge(s.flying, base, d.batches);
    hide D.FilesOk, D.DumpedOk, D.Base, D.UpdateAnchor, D.Ids, D.Evict, D.Chained;
  }

  lemma EvictGoes(s: D.System, due: bool, o: D.Options, edges: set<nat>)
    requires D.Consistent(s, o) && Edged(s, edges) && (s.stage.SyncEvict? || s.stage.Evicting?)
    ensures Edged(D.Step(s, D.Proceed(due), o), edges)
  {
    assert D.Evict(s.flying, D.NextIndex(s.anchor)).Some?;
    EvictKeeps(s.flying, D.NextIndex(s.anchor));
    hide D.Consistent, D.Evict;
  }

  lemma ProceedGoes(s: D.System, due: bool, o: D.Options, edges: set<nat>)
    requires D.Consistent(s, o) && Edged(s, edges)
    ensures var s' := D.Step(s, D.Proceed(due), o);
            && Edged(s', edges) && s'.nextIndex == s.nextIndex && s'.accepted == s.accepted
            && D.NextIndex(s.anchor) <= D.NextIndex(s'.anchor)
  {
    hide D.Consistent, D.UpdateAnchor, D.Evict, D.NeedDump, D.NeedFinish, D.NextIndex;
    match s.stage
    case Anchoring(_) => AnchorGoes(s, due, o, edges);
    case SyncEvict => EvictGoes(s, due, o, edges);
    case Evicting => EvictGoes(s, due, o, edges);
    case _ =>
  }

  lemma StepGoes(s: D.System, a: D.Action, o: D.Options, edges: set<nat>)
    requires D.Consistent(s, o) && Edged(s, edges) && !a.Accept?
    ensures Goes(s, D.Step(s, a, o)) && Edged(D.Step(s, a, o), edges)
  {
    D.StepIsSafe(s, a, o);
    AnchorWithin(s, o);
    AnchorWithin(D.Step(s, a, o), o);
    hide D.Consistent, D.EvictFlying, D.DumpOne, D.UpdateAnchor, D.NeedDump, D.NeedFinish;
    if a.Proceed? {
      ProceedGoes(s, a.due, o, edges);
      hide *;
    }
  }

  lemma {:induction false} RunGoes(s: D.System, actions: seq<D.Action>, o: D.Options, edges: set<nat>)
    requires D.Consistent(s, o) && Edged(s, edges) && AcceptsNothing(actions)
    ensures D.Consistent(D.RunFrom(s, actions, o), o)
    ensures Goes(s, D.RunFrom(s, actions, o)) && Edged(D.RunFrom(s, actions, o), edges)
  {
    hide D.Consistent, D.Step;
    AnchorWithin(s, o);
    if actions != [] {
      var front, a := actions[..|actions| - 1], actions[|actions| - 1];
      RunGoes(s, front, o, edges);
      StepGoes(D.RunFrom(s, front, o), a, o, edges);
      D.StepIsSafe(D.RunFrom(s, front, o), a, o);
    }
  }

  /** The peer answers with its next index and, after dumping on for a while or even after a restart, with the index
      dumped by then, which always comes before the next index. */
  lemma DumpedBeforeNext(before: seq<D.Action>, gap: seq<D.Action>, o: D.Options)
    requires AcceptsNothing(gap)
    ensures var s := D.After(before, o);
            var dumped := DumpedIndex(D.RunFrom(s, gap, o).anchor);
            dumped.Some? ==> dumped.value < s.nextIndex
  {
    D.EveryRunIsConsistent(before, o);
    var s := D.After(before, o);
    var edges := {D.NextIndex(s.anchor), s.nextIndex} + set b | b in s.flying :: b.End();
    RunGoes(s, gap, o, edges);
  }

  // ---------------------------------------------------------------- the leader's place

  /** The leader produces a round of batches, or ends production; the peer takes some steps; or the leader asks for the
      peer's indices, between which the peer may dump but not accept, and serves it. */
  datatype Event =
    | Round(sizes: seq<nat>)
    | End
    | Steps(actions: seq<D.Action>)
    | Serve(gap: seq<D.Action>)

  /** Whatever a dumping peer is sent, and whatever crashes, the place the leader remembers is never negative, so that
      the assertion on it holds at every fetch. */
  method ServePeer(events: seq<Event>, o: D.Options) returns (places: seq<Option<int>>)
    ensures forall p :: p in places && p.Some? ==> p.value >= 0
  {
    var fetcher := new Q.ItemBatchSeqProcessor();
    var leader := new Q.SyncLeader(fetcher);
    var past: seq<D.Action> := [];
    var peer := D.Start();
    places := [];
    hide *;
    for i := 0 to |events|
      invariant fetcher.Valid() && fetcher.Recorded() && leader.fetcher == fetcher && fresh(leader) && fresh(fetcher)
      invariant peer == D.After(past, o) && (leader.hint.Some? ==> leader.hint.value >= 0)
      invariant forall p :: p in places && p.Some? ==> p.value >= 0
    {
      match events[i]
      case Round(sizes) =>
        ProduceRound(fetcher, peer.nextIndex, sizes);
      case End =>
        fetcher.SetInputFinished();
        fetcher.SetProcessFinished();
      case Steps(actions) =>
        RunAppend(D.Start(), past, actions, o);
        past, peer := past + actions, D.RunFrom(peer, actions, o);
      case Serve(gap) =>
        if AcceptsNothing(gap) {
          var next := peer.nextIndex;
          DumpedBeforeNext(past, gap, o);
          RunAppend(D.Start(), past, gap, o);
          past, peer := past + gap, D.RunFrom(peer, gap, o);
          var _, _ := leader.GetSyncContent(Some(next), DumpedIndex(peer.anchor));
          places := places + [leader.hint];
        }
    }
  }

  lemma {:induction false} RunAppend(s: D.System, before: seq<D.Action>, more: seq<D.Action>, o: D.Options)
    ensures D.RunFrom(s, before + more, o) == D.RunFrom(D.RunFrom(s, before, o), more, o)
  {
    hide D.Step;
    var all := before + more;
    if more == [] {
      assert all == before;
    } else {
      assert all[..|all| - 1] == before + more[..|more| - 1];
      RunAppend(s, before, more[..|more| - 1], o);
    }
  }

  method ProduceRound(fetcher: Q.ItemBatchSeqProcessor, next: nat, sizes: seq<nat>)
    requires fetcher.Valid() && fetcher.Recorded()
    modifies fetcher`queue, fetcher`flyingItems, fetcher`lastIndex
    ensures fetcher.Valid() && fetcher.Recorded()
  {
    var from := fetcher.StartProducing(next);
    for i := 0 to |sizes|
      invariant fetcher.Valid() && fetcher.Recorded()
      invariant fetcher.queue != [] ==> fetcher.queue[|fetcher.queue| - 1].End() == from
    {
      var _ := fetcher.ProduceOne(Q.Batch(from, sizes[i]));
      from := from + sizes[i];
    }
  }

  // ---------------------------------------------------------------- leader and peer

  /** The leader's items from index 0 up to `n`. */
  function Content(item: nat -> D.Id, n: nat): seq<D.Id> {
    seq(n, i requires 0 <= i < n => item(i))
  }

  /** The batch as it is sent. */
  function Packed(item: nat -> D.Id, b: Q.Batch): D.Batch {
    D.Batch(b.begin, seq(b.size, i requires 0 <= i < b.size => item(b.begin + i)))
  }

  /** Where the batches begin and end. */
  ghost function Edges(produced: seq<Q.Batch>): set<nat> {
    set k | 0 <= k <= |produced| :: Q.EndOf(produced[..k])
  }

  /** The peer has the content of what was fetched, its anchor and its batches end where the leader's do, and nothing
      is evicted beyond its anchor. */
  ghost predicate Linked(item: nat -> D.Id, produced: seq<Q.Batch>, fetched: seq<Q.Batch>, evicted: nat, peer: D.System)
  {
    && evicted <= |produced| && Q.EndOf(produced[..evicted]) <= D.NextIndex(peer.anchor)
    && Q.EndOf(fetched) == peer.nextIndex && peer.accepted == Content(item, peer.nextIndex)
    && Edged(peer, Edges(produced))
  }

  /** Batches are not empty, so ends tell them apart. */
  lemma {:induction false} EndsIncrease(produced: seq<Q.Batch>, i: nat, j: nat)
    requires Q.Consecutive(produced) && (produced != [] ==> produced[0].begin == 0) && i < j <= |produced|
    ensures Q.EndOf(produced[..i]) < Q.EndOf(produced[..j])
  {
    if i > 0 {
      Q.BeginsIncrease(produced, i - 1, j - 1);
    }
  }

  lemma EdgesGrow(produced: seq<Q.Batch>, b: Q.Batch)
    ensures Edges(produced) <= Edges(produced + [b])
  {
    forall n | n in Edges(produced) ensures n in Edges(produced + [b]) {
      var k :| 0 <= k <= |produced| && n == Q.EndOf(produced[..k]);
      assert (produced + [b])[..k] == produced[..k];
    }
  }

  lemma LinkedProduce(item: nat -> D.Id, produced: seq<Q.Batch>, fetched: seq<Q.Batch>, evicted: nat, peer: D.System,
                      b: Q.Batch)
    requires Linked(item, produced, fetched, evicted, peer)
    ensures Linked(item, produced + [b], fetched, evicted, peer)
  {
    EdgesGrow(produced, b);
    assert (produced + [b])[..evicted] == produced[..evicted];
    hide Q.EndOf, D.NextIndex, Content, Edges;
  }

  lemma EndsAgree(produced: seq<Q.Batch>, fetched: seq<Q.Batch>)
    requires Q.Consecutive(produced) && (produced != [] ==> produced[0].begin == 0) && fetched <= produced
    ensures Q.EndOf(fetched) <= Q.EndOf(produced) && (fetched == produced <==> Q.EndOf(fetched) == Q.EndOf(produced))
  {
    assert produced[..|produced|] == produced && produced[..|fetched|] == fetched;
    if |fetched| < |produced| {
      EndsIncrease(produced, |fetched|, |produced|);
    }
  }

  /** How many batches end at or before index `n`. */
  function Kept(fetched: seq<Q.Batch>, n: nat): nat {
    if fetched == [] || Q.EndOf(fetched) <= n then |fetched| else Kept(fetched[..|fetched| - 1], n)
  }

  lemma {:induction false} KeptIsExact(fetched: seq<Q.Batch>, k: nat)
    requires Q.Consecutive(fetched) && (fetched != [] ==> fetched[0].begin == 0) && k <= |fetched|
    ensures Kept(fetched, Q.EndOf(fetched[..k])) == k
  {
    assert fetched[..|fetched|] == fetched;
    if k < |fetched| {
      EndsIncrease(fetched, k, |fetched|);
      var front := fetched[..|fetched| - 1];
      PrefixConsecutive(fetched, |front|);
      assert front[..k] == fetched[..k];
      hide Q.EndOf, Q.Consecutive;
      KeptIsExact(front, k);
    }
  }

  lemma PrefixConsecutive(q: seq<Q.Batch>, n: nat)
    requires Q.Consecutive(q) && n <= |q|
    ensures Q.Consecutive(q[..n])
  {
    forall i | 0 <= i < n - 1 ensures Q.Adjacent(q[..n], i) {
      assert Q.Adjacent(q, i);
    }
  }

  /** What it fetched and has kept, after dumping on or a restart, is everything evicted at least. */
  lemma KeptBatches(item: nat -> D.Id, produced: seq<Q.Batch>, fetched: seq<Q.Batch>, evicted: nat, peer: D.System,
                    after: D.System)
    requires Linked(item, produced, fetched, evicted, peer) && Goes(peer, after) && Edged(after, Edges(produced))
    requires Q.Consecutive(produced) && (produced != [] ==> produced[0].begin == 0) && fetched <= produced
    ensures var kept := Kept(fetched, after.nextIndex);
            evicted <= kept <= |fetched| && Linked(item, produced, fetched[..kept], evicted, after)
  {
    var kept :| 0 <= kept <= |produced| && after.nextIndex == Q.EndOf(produced[..kept]);
    if kept < evicted {
      EndsIncrease(produced, kept, evicted);
    }
    assert produced[..|fetched|] == fetched;
    if kept > |fetched| {
      EndsIncrease(produced, |fetched|, kept);
    }
    assert fetched[..kept] == produced[..kept];
    PrefixConsecutive(produced, |fetched|);
    KeptIsExact(fetched, kept);
    assert Content(item, peer.nextIndex)[..after.nextIndex] == Content(item, after.nextIndex);
    hide Q.EndOf, Content, Edges, D.NextIndex;
  }

  lemma ContentGrows(item: nat -> D.Id, b: Q.Batch)
    ensures Content(item, b.begin) + Packed(item, b).ids == Content(item, b.End())
  {
  }

  lemma LastEdge(produced: seq<Q.Batch>, n: nat)
    requires n < |produced|
    ensures produced[n].End() in Edges(produced) && Q.EndOf(produced[..n] + [produced[n]]) == produced[n].End()
  {
    assert produced[..n + 1] == produced[..n] + [produced[n]];
    assert produced[n].End() == Q.EndOf(produced[..n + 1]);
  }

  /** The peer takes the next batch. */
  lemma LinkedAccept(item: nat -> D.Id, produced: seq<Q.Batch>, fetched: seq<Q.Batch>, evicted: nat, peer: D.System,
                     o: D.Options)
    requires Linked(item, produced, fetched, evicted, peer) && |fetched| < |produced| && fetched <= produced
    requires produced[|fetched|].begin == peer.nextIndex && !peer.finished
    ensures var b := produced[|fetched|];
            Linked(item, produced, fetched + [b], evicted, D.Step(peer, D.Accept(Packed(item, b)), o))
  {
    var b := produced[|fetched|];
    ContentGrows(item, b);
    LastEdge(produced, |fetched|);
    assert produced[..|fetched|] == fetched && Packed(item, b).End() == b.End();
    hide D.NextIndex, Edges, Content, Q.EndOf, Packed;
  }

  lemma LinkedEvict(item: nat -> D.Id, produced: seq<Q.Batch>, fetched: seq<Q.Batch>, evicted: nat, peer: D.System,
                    more: nat, dumped: Option<nat>)
    requires Linked(item, produced, fetched, evicted, peer) && more <= |produced| && evicted <= more
    requires dumped.Some? ==> dumped.value < D.NextIndex(peer.anchor)
    requires more > evicted ==> dumped.Some? && Q.EndOf(produced[..more]) <= dumped.value + 1
    ensures Linked(item, produced, fetched, more, peer)
  {
  }

  /** What happens next: the leader starts a round, produces a batch, or is done; the peer takes some steps of its own;
      the leader fetches what the peer asks for, which may or may not reach it; the leader evicts what the peer has
      reported as dumped, now or earlier. */
  datatype Turn =
    | StartRound
    | Produce(size: nat)
    | Finish
    | RunPeer(actions: seq<D.Action>)
    | Fetch(hint: Option<nat>, sent: bool)
    | Evict(dumped: Option<nat>)

  /** The leader's session fits the peer. */
  ghost predicate InSync(item: nat -> D.Id, o: D.Options, leader: Q.Session, peer: D.System)
    reads leader, leader.fetcher
  {
    leader.InStep() && D.Consistent(peer, o) && Linked(item, leader.produced, leader.fetched, leader.evicted, peer)
  }

  /** The anchored files, and all the peer has, are the leader's items. */
  lemma FilesAreContent(item: nat -> D.Id, o: D.Options, leader: Q.Session, peer: D.System)
    requires InSync(item, o, leader, peer)
    ensures D.Consistent(peer, o) && peer.accepted == Content(item, peer.nextIndex)
    ensures Flat(peer.dumped) == Content(item, D.NextIndex(peer.anchor))
    ensures peer.nextIndex <= Q.EndOf(leader.produced)
  {
    leader.InTurn();
    EndsAgree(leader.produced, leader.fetched);
    hide D.FilesOk, D.FlyingOk, D.StageOk, Edges, Q.EndOf;
    AnchorWithin(peer, o);
    assert D.DumpedOk(peer.dumped, D.NextIndex(peer.anchor), peer.accepted);
    assert peer.accepted[..D.NextIndex(peer.anchor)] == Content(item, D.NextIndex(peer.anchor));
  }

  method Produce(item: nat -> D.Id, o: D.Options, leader: Q.Session, peer: D.System, size: nat) returns (ok: bool)
    requires InSync(item, o, leader, peer)
    modifies leader`produced, leader.fetcher
    ensures InSync(item, o, leader, peer) && ok
  {
    LinkedProduce(item, leader.produced, leader.fetched, leader.evicted, peer,
                  Q.Batch(Q.EndOf(leader.produced), size));
    hide *;
    ok := leader.Produce(size);
  }

  /** The peer dumps on, crashes or restarts, and asks for what follows the batches it has kept. */
  method RunPeer(item: nat -> D.Id, o: D.Options, leader: Q.Session, peer: D.System, actions: seq<D.Action>)
    returns (after: D.System)
    requires InSync(item, o, leader, peer) && AcceptsNothing(actions)
    modifies leader`fetched
    ensures InSync(item, o, leader, after) && after == D.RunFrom(peer, actions, o)
  {
    leader.InTurn();
    RunGoes(peer, actions, o, Edges(leader.produced));
    after := D.RunFrom(peer, actions, o);
    KeptBatches(item, leader.produced, leader.fetched, leader.evicted, peer, after);
    hide *;
    leader.RestartPeer(Kept(leader.fetched, after.nextIndex));
  }

  /** The batch that is fetched next is the one the peer asks for. */
  lemma NextFetch(item: nat -> D.Id, o: D.Options, leader: Q.Session, peer: D.System) returns (b: Option<Q.Batch>)
    requires InSync(item, o, leader, peer)
    ensures b == if |leader.fetched| < |leader.produced| then Some(leader.produced[|leader.fetched|]) else None
    ensures leader.fetched == leader.produced <==> peer.nextIndex == Q.EndOf(leader.produced)
    ensures b.Some? ==> b.value.begin == peer.nextIndex
    ensures b.Some? && !peer.finished ==>
              var next := D.Step(peer, D.Accept(Packed(item, b.value)), o);
              && D.Consistent(next, o)
              && Linked(item, leader.produced, leader.fetched + [b.value], leader.evicted, next)
  {
    leader.InTurn();
    leader.NextIsQueued();
    EndsAgree(leader.produced, leader.fetched);
    assert Q.EndOf(leader.fetched) == peer.nextIndex;
    if |leader.fetched| < |leader.produced| {
      b := Some(leader.produced[|leader.fetched|]);
      if !peer.finished {
        LinkedAccept(item, leader.produced, leader.fetched, leader.evicted, peer, o);
        D.StepIsSafe(peer, D.Accept(Packed(item, b.value)), o);
      }
    } else {
      b := None;
    }
    hide *;
  }

  /** The leader fetches the batch the peer asks for; it may not reach it. */
  method Fetch(item: nat -> D.Id, o: D.Options, leader: Q.Session, peer: D.System, hint: Option<nat>, sent: bool)
    returns (r: Q.Fetched, after: D.System)
    requires InSync(item, o, leader, peer)
    modifies leader`fetched
    ensures InSync(item, o, leader, after)
    ensures var n := |old(leader.fetched)|;
            r.batch == if n < |leader.produced| then Some(leader.produced[n]) else None
    ensures r.batch.Some? ==> r.batch.value.begin == peer.nextIndex
    ensures after == if r.batch.Some? && sent && !peer.finished
                     then D.Step(peer, D.Accept(Packed(item, r.batch.value)), o) else peer
    ensures r.finished <==> leader.fetcher.processFinished && leader.fetcher.lastIndex.Some?
                            && peer.nextIndex == Q.EndOf(leader.produced)
  {
    hide Linked, D.Consistent, D.Step, Packed, Q.EndOf, Q.Aligned, Q.Consecutive, Q.Items;
    ghost var b := NextFetch(item, o, leader, peer);
    r := leader.Fetch(hint, sent && !peer.finished);
    assert r.batch == b;
    after := peer;
    if r.batch.Some? && sent && !peer.finished {
      after := D.Step(peer, D.Accept(Packed(item, r.batch.value)), o);
    }
  }

  /** The leader evicts up to what the peer has reported as dumped, now or earlier. */
  method Evict(item: nat -> D.Id, o: D.Options, leader: Q.Session, peer: D.System, dumped: Option<nat>)
    requires InSync(item, o, leader, peer) && (dumped.Some? ==> dumped.value < D.NextIndex(peer.anchor))
    modifies leader.fetcher, leader`evicted
    ensures InSync(item, o, leader, peer)
  {
    AnchorWithin(peer, o);
    ghost var before := leader.evicted;
    assert D.Consistent(peer, o) && Linked(item, leader.produced, leader.fetched, before, peer);
    assert Q.EndOf(leader.fetched) == peer.nextIndex;
    hide *;
    leader.Evict(dumped);
    leader.InTurn();
    LinkedEvict(item, leader.produced, leader.fetched, before, peer, leader.evicted, dumped);
  }

  lemma StartsInSync(item: nat -> D.Id, o: D.Options, leader: Q.Session)
    requires leader.InStep() && leader.produced == leader.fetched == []
    ensures InSync(item, o, leader, D.Start())
  {
    D.EveryRunIsConsistent([], o);
    assert Q.EndOf([]) in Edges([]);
    hide D.Consistent;
  }

  /** One leader with a peer that dumps, crashes and restarts at any time: a round never rolls back, the peer gets the
      next batch whenever there is one and never an evicted or a wrong one, it is told of the end exactly when
      production has ended and it has everything, and its files are exactly the leader's items up to its anchor. */
  method Synchronize(item: nat -> D.Id, turns: seq<Turn>, o: D.Options)
    returns (peer: D.System, produced: seq<Q.Batch>, ok: bool, exact: bool)
    ensures D.Consistent(peer, o) && ok && exact
    ensures peer.nextIndex <= Q.EndOf(produced) && peer.accepted == Content(item, peer.nextIndex)
    ensures Flat(peer.dumped) == Content(item, D.NextIndex(peer.anchor))
  {
    var leader := new Q.Session();
    peer, ok, exact := D.Start(), true, true;
    StartsInSync(item, o, leader);
    hide D.Consistent, Linked, Q.Aligned, D.RunFrom, D.Step;
    for i := 0 to |turns|
      invariant InSync(item, o, leader, peer) && fresh(leader) && fresh(leader.fetcher) && ok && exact
    {
      match turns[i]
      case StartRound =>
        var from := leader.StartRound();
        exact := from == Q.EndOf(leader.produced);
      case Produce(size) =>
        ok := Produce(item, o, leader, peer, size);
      case Finish =>
        leader.Finish();
      case RunPeer(actions) =>
        if AcceptsNothing(actions) {
          peer := RunPeer(item, o, leader, peer, actions);
        }
      case Fetch(hint, sent) =>
        var n, asked := |leader.fetched|, peer.nextIndex;
        var r;
        r, peer := Fetch(item, o, leader, peer, hint, sent);
        exact := && r.batch == (if n < |leader.produced| then Some(leader.produced[n]) else None)
                 && r.finished == (leader.fetcher.processFinished && leader.fetcher.lastIndex.Some?
                                   && asked == Q.EndOf(leader.produced));
      case Evict(dumped) =>
        if dumped.None? || dumped.value < D.NextIndex(peer.anchor) {
          Evict(item, o, leader, peer, dumped);
        }
    }
    FilesAreContent(item, o, leader, peer);
    produced := leader.produced;
  }
}
