/** Handing out data blocks epoch by epoch, shuffled, with checkpoints. */
module EpochAllocator {

  /** A data block; the day of its end time, 0 when it has none. */
  datatype Block = Block(id: int, day: int)

  datatype ShuffleType = NoShuffle | All | Day

  datatype Kind = Joined | Local

  function Other(k: Kind): Kind { if k == Joined then Local else Joined }

  /** A block handed out in an epoch. */
  datatype Handed = Handed(epoch: nat, id: int)

  datatype Outcome = Got(block: Handed) | Stop | NoSuchKind

  /** The block ids allocated in each epoch. */
  type Allocated = map<nat, set<int>>

  predicate Has(a: Allocated, epoch: nat, id: int) {
    epoch in a && id in a[epoch]
  }

  function Allocate(a: Allocated, epoch: nat, id: int): (r: Allocated)
    ensures forall e, i :: Has(r, e, i) <==> Has(a, e, i) || (e == epoch && i == id)
  {
    a[epoch := (if epoch in a then a[epoch] else {}) + {id}]
  }

  /** What restoring a checkpoint adds. */
  function Merge(a: Allocated, b: Allocated): (r: Allocated)
    ensures forall e, i :: Has(r, e, i) <==> Has(a, e, i) || Has(b, e, i)
  {
    map e | e in a.Keys + b.Keys :: (if e in a then a[e] else {}) + (if e in b then b[e] else {})
  }

  // ---------------------------------------------------------------- shuffling in place

  /** Fisher-Yates on [lo, hi]; the choices of the random generator do not matter. */
  method ShuffleRange(a: array<Block>, lo: nat, hi: nat, ghost oneDay: bool)
    requires lo <= hi < a.Length
    requires oneDay ==> forall k :: lo <= k <= hi ==> a[k].day == a[lo].day
    modifies a
    ensures multiset(a[..]) == multiset(old(a[..]))
    ensures forall k :: 0 <= k < lo || hi < k < a.Length ==> a[k] == old(a[k])
    ensures oneDay ==> forall k :: lo <= k <= hi ==> a[k].day == old(a[lo].day)
  {
    for i := hi + 1 downto lo + 1
      invariant multiset(a[..]) == multiset(old(a[..]))
      invariant forall k :: 0 <= k < lo || hi < k < a.Length ==> a[k] == old(a[k])
      invariant oneDay ==> forall k :: lo <= k <= hi ==> a[k].day == old(a[lo].day)
    {
      var j :| lo <= j <= i;
      Swap(a, i, j);
    }
  }

  method Swap(a: array<Block>, i: nat, j: nat)
    requires i < a.Length && j < a.Length
    modifies a
    ensures a[i] == old(a[j]) && a[j] == old(a[i]) && multiset(a[..]) == multiset(old(a[..]))
    ensures forall k :: 0 <= k < a.Length && k != i && k != j ==> a[k] == old(a[k])
  {
    a[i], a[j] := a[j], a[i];
  }

  /** `shuffle_in_day`: permutes the blocks and leaves every place on its day. */
  method ShuffleInDay(a: array<Block>)
    modifies a
    ensures multiset(a[..]) == multiset(old(a[..]))
    ensures forall k :: 0 <= k < a.Length ==> a[k].day == old(a[k]).day
  {
    if a.Length == 0 || a[0].day == 0 {
      return;
    }
    var start, end := 0, 1;
    var startDay := a[0].day;
    while end < a.Length
      invariant 0 <= start < end <= a.Length && multiset(a[..]) == multiset(old(a[..]))
      invariant forall k :: 0 <= k < a.Length ==> a[k].day == old(a[k]).day
      invariant forall k :: start <= k < end ==> a[k].day == startDay
    {
      var newDay := a[end].day;
      if newDay != startDay {
        ShuffleRange(a, start, end - 1, true);
        start := end;
        startDay := newDay;
      }
      end := end + 1;
    }
    ShuffleRange(a, start, end - 1, true);
  }

  /** The same blocks; in the same order if they are not shuffled, and with every place on its day if they are shuffled
      day by day. */
  ghost predicate ShuffledAs(how: ShuffleType, before: seq<Block>, after: seq<Block>) {
    && multiset(after) == multiset(before) && |after| == |before|
    && (how == NoShuffle ==> after == before)
    && (how == Day ==> forall i :: 0 <= i < |before| ==> after[i].day == before[i].day)
  }

  lemma ShuffledTwice(how: ShuffleType, before: seq<Block>, between: seq<Block>, after: seq<Block>)
    requires ShuffledAs(how, before, between) && ShuffledAs(how, between, after)
    ensures ShuffledAs(how, before, after)
  {
  }

  lemma NotShuffled(how: ShuffleType, blocks: seq<Block>)
    ensures ShuffledAs(how, blocks, blocks)
  {
  }

  lemma SameIdsShuffled(how: ShuffleType, before: seq<Block>, after: seq<Block>)
    requires ShuffledAs(how, before, after)
    ensures Ids(after) == Ids(before)
  {
    SameIds(before, after);
  }

  method Shuffle(blocks: seq<Block>, how: ShuffleType) returns (r: seq<Block>)
    ensures ShuffledAs(how, blocks, r)
  {
    var a := new Block[|blocks|](i requires 0 <= i < |blocks| => blocks[i]);
    assert a[..] == blocks;
    if how == All && |blocks| > 0 {
      ShuffleRange(a, 0, |blocks| - 1, false);
    } else if how == Day {
      ShuffleInDay(a);
    }
    r := a[..];
  }

  function Ids(blocks: seq<Block>): set<int> {
    set b | b in blocks :: b.id
  }

  lemma IdIn(blocks: seq<Block>, i: nat)
    requires i < |blocks|
    ensures blocks[i].id in Ids(blocks)
  {
    assert blocks[i] in blocks;
  }

  lemma SameIds(xs: seq<Block>, ys: seq<Block>)
    requires multiset(xs) == multiset(ys)
    ensures Ids(xs) == Ids(ys)
  {
    assert forall b :: b in xs <==> b in multiset(xs);
    assert forall b :: b in ys <==> b in multiset(ys);
  }

  /** Every id is allocated in every epoch from `first` up to, but not including, `end`. */
  ghost predicate AllIn(ids: set<int>, first: nat, end: nat, a: Allocated) {
    forall e, id :: first <= e < end && id in ids ==> Has(a, e, id)
  }

  /** Every block has been allocated in the epochs from `first` on before this one, and in this one up to the index. */
  ghost predicate CoveredBy(blocks: seq<Block>, index: nat, first: nat, epoch: nat, a: Allocated)
    requires index <= |blocks|
  {
    AllIn(Ids(blocks), first, epoch, a) && forall i :: 0 <= i < index ==> Has(a, epoch, blocks[i].id)
  }

  lemma MoreCovers(blocks: seq<Block>, index: nat, first: nat, epoch: nat, a: Allocated, more: Allocated)
    requires index <= |blocks| && forall e, id :: Has(a, e, id) ==> Has(more, e, id)
    ensures CoveredBy(blocks, index, first, epoch, a) ==> CoveredBy(blocks, index, first, epoch, more)
  {
  }

  lemma AdvanceCovers(blocks: seq<Block>, index: nat, first: nat, epoch: nat, a: Allocated)
    requires index < |blocks| && Has(a, epoch, blocks[index].id)
    ensures CoveredBy(blocks, index, first, epoch, a) ==> CoveredBy(blocks, index + 1, first, epoch, a)
  {
  }

  /** At the end of the list the whole epoch is allocated. */
  lemma EpochIsDone(blocks: seq<Block>, first: nat, epoch: nat, a: Allocated)
    requires CoveredBy(blocks, |blocks|, first, epoch, a)
    ensures AllIn(Ids(blocks), first, epoch + 1, a)
  {
    forall id | id in Ids(blocks) ensures Has(a, epoch, id) {
      var b :| b in blocks && b.id == id;
      var i :| 0 <= i < |blocks| && blocks[i] == b;
    }
  }

  lemma EpochBegins(blocks: seq<Block>, first: nat, epoch: nat, a: Allocated)
    ensures AllIn(Ids(blocks), first, epoch, a) ==> CoveredBy(blocks, 0, first, epoch, a)
  {
  }

  /** A kind that is not asked for: nothing changes while the epoch stays; when it moves on, the list starts afresh and
      whether the kind is still covered depends on the epochs passed. */
  lemma LeftBehind(blocks: seq<Block>, index: nat, was: nat, before: Allocated, blocks': seq<Block>, index': nat,
                   epoch: nat, after: Allocated)
    requires index <= |blocks| && index' <= |blocks'| && Ids(blocks') == Ids(blocks) && 1 <= was <= epoch
    requires if epoch == was then blocks' == blocks && index' == index else index' == 0
    requires forall e, id :: Has(before, e, id) ==> Has(after, e, id)
    requires forall e, id :: Has(after, e, id) && e != epoch ==> Has(before, e, id)
    ensures CoveredBy(blocks, index, 1, was, before) ==>
              (CoveredBy(blocks', index', 1, epoch, after) <==> AllIn(Ids(blocks'), was, epoch, before))
    ensures epoch > was ==> CoveredBy(blocks', index', epoch, epoch, after)
  {
    if CoveredBy(blocks, index, 1, was, before) {
      if CoveredBy(blocks', index', 1, epoch, after) {
        forall e, id | was <= e < epoch && id in Ids(blocks') ensures Has(before, e, id) {
          assert Has(after, e, id);
        }
      }
    }
  }

  /** Both lists are shuffled, and hold the same ids. */
  ghost predicate Reshuffled(how: ShuffleType, j0: seq<Block>, l0: seq<Block>, j: seq<Block>, l: seq<Block>) {
    ShuffledAs(how, j0, j) && ShuffledAs(how, l0, l) && Ids(j) == Ids(j0) && Ids(l) == Ids(l0)
  }

  lemma NotReshuffled(how: ShuffleType, j: seq<Block>, l: seq<Block>)
    ensures Reshuffled(how, j, l, j, l)
  {
  }

  lemma ReshuffledIds(how: ShuffleType, j: seq<Block>, l: seq<Block>, j': seq<Block>, l': seq<Block>)
    requires Reshuffled(how, j, l, j', l')
    ensures Ids(j') == Ids(j) && Ids(l') == Ids(l)
  {
  }

  lemma ReshuffledTwice(how: ShuffleType, j0: seq<Block>, l0: seq<Block>, j: seq<Block>, l: seq<Block>, j': seq<Block>,
                        l': seq<Block>)
    requires Reshuffled(how, j0, l0, j, l) && Reshuffled(how, j, l, j', l')
    ensures Reshuffled(how, j0, l0, j', l')
  {
    ShuffledTwice(how, j0, j, j');
    ShuffledTwice(how, l0, l, l');
  }

  // ---------------------------------------------------------------- the visitor

  class DataVisitor {
    const epochNum: nat
    const how: ShuffleType
    const hasLocal: bool
    var joined: seq<Block>
    var local: seq<Block>
    var joinedIndex: nat
    var localIndex: nat
    var epoch: nat
    var given: Allocated

    function Blocks(k: Kind): seq<Block>
      reads this
    {
      if k == Joined then joined else local
    }

    function Index(k: Kind): nat
      reads this
    {
      if k == Joined then joinedIndex else localIndex
    }

    ghost predicate Valid()
      reads this
    {
      1 <= epoch <= epochNum && joinedIndex <= |joined| && localIndex <= |local|
    }

    /** The kind has been handed out without a gap since the epoch `first`. */
    ghost predicate CoveredSince(k: Kind, first: nat)
      reads this
      requires Valid()
    {
      CoveredBy(Blocks(k), Index(k), first, epoch, given)
    }

    ghost predicate Covered(k: Kind)
      reads this
      requires Valid()
    {
      CoveredSince(k, 1)
    }

    constructor (joined: seq<Block>, local: seq<Block>, hasLocal: bool, epochs: int, how: ShuffleType)
      ensures Valid() && this.hasLocal == hasLocal && epochNum == (if epochs > 0 then epochs else 1) && epoch == 1
      ensures Ids(this.joined) == Ids(joined) && Ids(this.local) == Ids(local) && given == map[]
      ensures ShuffledAs(how, joined, this.joined) && ShuffledAs(how, local, this.local) && this.how == how
      ensures joinedIndex == 0 && localIndex == 0
      ensures forall k :: Covered(k)
    {
      hide ShuffledAs, Ids;
      this.hasLocal, this.how := hasLocal, how;
      epochNum := if epochs > 0 then epochs else 1;
      joinedIndex, localIndex, epoch, given := 0, 0, 1, map[];
      var j := Shuffle(joined, how);
      var l := Shuffle(local, how);
      SameIdsShuffled(how, joined, j);
      SameIdsShuffled(how, local, l);
      this.joined, this.local := j, l;
    }

    /** The end of an epoch: start the next one with freshly shuffled blocks. */
    method NextEpoch()
      requires Valid() && epoch < epochNum
      modifies this`epoch, this`joined, this`local, this`joinedIndex, this`localIndex
      ensures Valid() && epoch == old(epoch) + 1 && joinedIndex == 0 && localIndex == 0
      ensures Reshuffled(how, old(joined), old(local), joined, local)
    {
      hide ShuffledAs, Ids;
      epoch := epoch + 1;
      joinedIndex, localIndex := 0, 0;
      var j := Shuffle(joined, how);
      var l := Shuffle(local, how);
      SameIdsShuffled(how, joined, j);
      SameIdsShuffled(how, local, l);
      joined, local := j, l;
    }

    method Advance(k: Kind)
      requires Valid() && Index(k) < |Blocks(k)|
      modifies this`joinedIndex, this`localIndex
      ensures Valid() && Index(k) == old(Index(k)) + 1
      ensures Index(Other(k)) == old(Index(Other(k)))
    {
      if k == Joined {
        joinedIndex := joinedIndex + 1;
      } else {
        localIndex := localIndex + 1;
      }
    }

    /** The blocks in the places from `from` up to, but not including, `end` are allocated in this epoch. */
    ghost predicate NoneFree(k: Kind, from: nat, end: nat)
      reads this
    {
      end <= |Blocks(k)| && forall i :: from <= i < end ==> Has(given, epoch, Blocks(k)[i].id)
    }

    /** Skips the blocks of this epoch that are allocated already. */
    method SkipAllocated(k: Kind, ghost since: nat)
      requires Valid()
      modifies this`joinedIndex, this`localIndex
      ensures Valid() && Index(Other(k)) == old(Index(Other(k)))
      ensures old(CoveredSince(k, since)) ==> CoveredSince(k, since)
      ensures Index(k) < |Blocks(k)| ==> !Has(given, epoch, Blocks(k)[Index(k)].id)
      ensures old(Index(k)) <= Index(k) && NoneFree(k, old(Index(k)), Index(k))
    {
      while Index(k) < |Blocks(k)| && Has(given, epoch, Blocks(k)[Index(k)].id)
        invariant Valid() && Index(Other(k)) == old(Index(Other(k)))
        invariant old(CoveredSince(k, since)) ==> CoveredSince(k, since)
        invariant old(Index(k)) <= Index(k) && NoneFree(k, old(Index(k)), Index(k))
        decreases |Blocks(k)| - Index(k)
      {
        Advance(k);
      }
    }

    /** `_next`.  A block of the kind that is not allocated yet, in the first epoch from the current one on that has
        one; when the epoch moves on, blocks of the other kind that are not allocated stay behind.  What is claimed for
        the kind asked for holds for any epoch `since` which it has been handed out without a gap. */
    method Next(peek: bool, k: Kind, ghost since: nat := 1) returns (r: Outcome)
      requires Valid() && 1 <= since <= epoch
      modifies this
      ensures Valid() && Ids(joined) == old(Ids(joined)) && Ids(local) == old(Ids(local)) && epoch >= old(epoch)
      ensures r == NoSuchKind <==> k == Local && !hasLocal
      ensures r.Got? ==> && r.block.epoch == epoch && r.block.id in Ids(Blocks(k))
                         && !Has(old(given), epoch, r.block.id)
      ensures given == if r.Got? && !peek then Allocate(old(given), epoch, r.block.id) else old(given)
      ensures ShuffledAs(how, old(joined), joined) && ShuffledAs(how, old(local), local)
      ensures r.Got? ==>
                var place := if peek then Index(k) else Index(k) - 1;
                && 0 <= place < |Blocks(k)| && r.block.id == Blocks(k)[place].id
                && NoneFree(k, if epoch == old(epoch) then old(Index(k)) else 0, place)
      ensures old(CoveredSince(k, since)) ==>
                CoveredSince(k, since) && (r == Stop ==> AllIn(Ids(Blocks(k)), since, epochNum + 1, given))
      ensures old(Covered(Other(k))) ==>
                (Covered(Other(k)) <==> AllIn(Ids(Blocks(Other(k))), old(epoch), epoch, old(given)))
      ensures epoch > old(epoch) ==> CoveredSince(Other(k), epoch)
    {
      hide AllIn, CoveredBy, Has, Ids, ShuffledAs;
      NotShuffled(how, joined);
      NotShuffled(how, local);
      if k == Local && !hasLocal {
        LeftBehind(Blocks(Other(k)), Index(Other(k)), epoch, given, Blocks(Other(k)), Index(Other(k)), epoch, given);
        return NoSuchKind;
      }
      ghost var others, place := Blocks(Other(k)), Index(Other(k));
      var found := FindNext(k, since);
      if !found {
        LeftBehind(others, place, old(epoch), old(given), Blocks(Other(k)), Index(Other(k)), epoch, given);
        return Stop;
      }
      var id := Blocks(k)[Index(k)].id;
      IdIn(Blocks(k), Index(k));
      if !peek {
        MoreCovers(Blocks(k), Index(k), since, epoch, given, Allocate(given, epoch, id));
        AdvanceCovers(Blocks(k), Index(k), since, epoch, Allocate(given, epoch, id));
        Advance(k);
        given := Allocate(given, epoch, id);
      }
      LeftBehind(others, place, old(epoch), old(given), Blocks(Other(k)), Index(Other(k)), epoch, given);
      return Got(Handed(epoch, id));
    }

    /** The loops of `_next`: moves on to the next block that is not allocated, if there is one. */
    method FindNext(k: Kind, ghost since: nat) returns (found: bool)
      requires Valid() && 1 <= since <= epoch
      modifies this`epoch, this`joined, this`local, this`joinedIndex, this`localIndex
      ensures Valid() && epoch >= old(epoch) && Reshuffled(how, old(joined), old(local), joined, local)
      ensures old(CoveredSince(k, since)) ==>
                CoveredSince(k, since) && (!found ==> AllIn(Ids(Blocks(k)), since, epochNum + 1, given))
      ensures if epoch == old(epoch)
              then Blocks(Other(k)) == old(Blocks(Other(k))) && Index(Other(k)) == old(Index(Other(k)))
              else Index(Other(k)) == 0
      ensures found ==> Index(k) < |Blocks(k)| && !Has(given, epoch, Blocks(k)[Index(k)].id)
      ensures found ==> NoneFree(k, if epoch == old(epoch) then old(Index(k)) else 0, Index(k))
    {
      hide AllIn, CoveredBy, Has, Ids, ShuffledAs, NoneFree, Reshuffled;
      NotReshuffled(how, joined, local);
      while true
        invariant Valid() && epoch >= old(epoch)
        invariant old(CoveredSince(k, since)) ==> CoveredSince(k, since)
        invariant if epoch == old(epoch)
                  then Blocks(Other(k)) == old(Blocks(Other(k))) && Index(Other(k)) == old(Index(Other(k)))
                  else Index(Other(k)) == 0
        invariant Reshuffled(how, old(joined), old(local), joined, local)
        invariant if epoch == old(epoch) then Index(k) == old(Index(k)) && Blocks(k) == old(Blocks(k))
                  else Index(k) == 0
        decreases epochNum - epoch
      {
        SkipAllocated(k, since);
        if Index(k) < |Blocks(k)| {
          return true;
        }
        if CoveredSince(k, since) {
          EpochIsDone(Blocks(k), since, epoch, given);
        }
        if epoch == epochNum {
          return false;
        }
        ghost var j, l := joined, local;
        NextEpoch();
        ReshuffledIds(how, j, l, joined, local);
        ReshuffledTwice(how, old(joined), old(local), j, l, joined, local);
        EpochBegins(Blocks(k), since, epoch, given);
      }
    }

    method Dump() returns (checkpoint: Allocated)
      ensures checkpoint == given
    {
      checkpoint := given;
    }

    /** `restore`: takes over a checkpoint and moves to the first block still to be handed out. */
    method Restore(checkpoint: Allocated)
      requires Valid()
      modifies this
      ensures Valid() && Ids(joined) == old(Ids(joined)) && Ids(local) == old(Ids(local))
      ensures given == Merge(old(given), checkpoint)
      ensures old(Covered(Joined)) ==> Covered(Joined)
    {
      MoreCovers(joined, joinedIndex, 1, epoch, given, Merge(given, checkpoint));
      given := Merge(given, checkpoint);
      var _ := Next(true, Joined);
    }
  }

  // ---------------------------------------------------------------- training runs with restarts

  ghost predicate NoneTwice(h: seq<Handed>) {
    forall i, j :: 0 <= i < j < |h| ==> h[i] != h[j]
  }

  /** What has been handed out is what is allocated. */
  ghost predicate Ledger(h: seq<Handed>, a: Allocated) {
    NoneTwice(h) && forall e, id :: Has(a, e, id) <==> Handed(e, id) in h
  }

  lemma LedgerStep(h: seq<Handed>, a: Allocated, b: Handed)
    requires Ledger(h, a) && !Has(a, b.epoch, b.id)
    ensures Ledger(h + [b], Allocate(a, b.epoch, b.id))
  {
    assert b !in h;
  }

  ghost predicate Within(h: seq<Handed>, epochNum: nat, ids: set<int>) {
    forall b :: b in h ==> 1 <= b.epoch <= epochNum && b.id in ids
  }

  ghost predicate OnlyJoined(requests: seq<Kind>) {
    forall i :: 0 <= i < |requests| ==> requests[i] == Joined
  }

  /** Serves requests for joined and local blocks in any order; `exhausted` says that one for a joined block was
      refused. */
  method Serve(v: DataVisitor, requests: seq<Kind>, ghost before: seq<Handed>)
    returns (taken: seq<Handed>, exhausted: bool)
    requires v.Valid() && Ledger(before, v.given) && Within(before, v.epochNum, Ids(v.joined) + Ids(v.local))
    modifies v
    ensures v.Valid() && Ids(v.joined) == old(Ids(v.joined)) && Ids(v.local) == old(Ids(v.local))
    ensures Ledger(before + taken, v.given) && Within(before + taken, v.epochNum, Ids(v.joined) + Ids(v.local))
    ensures old(v.Covered(Joined)) && exhausted && OnlyJoined(requests) ==>
              AllIn(Ids(v.joined), 1, v.epochNum + 1, v.given)
  {
    taken, exhausted := [], false;
    assert before + [] == before;
    for i := 0 to |requests|
      invariant v.Valid() && Ids(v.joined) == old(Ids(v.joined)) && Ids(v.local) == old(Ids(v.local))
      invariant Ledger(before + taken, v.given) && Within(before + taken, v.epochNum, Ids(v.joined) + Ids(v.local))
      invariant old(v.Covered(Joined)) && OnlyJoined(requests) ==>
                  v.Covered(Joined) && (exhausted ==> AllIn(Ids(v.joined), 1, v.epochNum + 1, v.given))
    {
      ghost var was := v.given;
      var r := v.Next(false, requests[i]);
      hide Ledger, Within, AllIn, DataVisitor.CoveredSince;
      if r.Got? {
        assert before + (taken + [r.block]) == (before + taken) + [r.block];
        LedgerStep(before + taken, was, r.block);
        WithinStep(before + taken, v.epochNum, Ids(v.joined) + Ids(v.local), r.block);
        StaysAllIn(Ids(v.joined), 1, v.epochNum + 1, was, r.block);
        taken := taken + [r.block];
      } else if r == Stop && requests[i] == Joined {
        exhausted := true;
      }
    }
  }

  lemma WithinStep(h: seq<Handed>, epochNum: nat, ids: set<int>, b: Handed)
    requires Within(h, epochNum, ids) && 1 <= b.epoch <= epochNum && b.id in ids
    ensures Within(h + [b], epochNum, ids)
  {
  }

  lemma StaysAllIn(ids: set<int>, first: nat, end: nat, a: Allocated, b: Handed)
    ensures AllIn(ids, first, end, a) ==> AllIn(ids, first, end, Allocate(a, b.epoch, b.id))
  {
  }

  /** Any number of rounds, each with a freshly shuffled visitor restored from the dump of the round before, and serving
      any requests: no block is handed out twice in an epoch over all rounds.  If the last round asks only for joined
      blocks until it is refused one, every joined block has been handed out exactly once in every epoch. */
  method Train(joined: seq<Block>, local: seq<Block>, hasLocal: bool, epochs: int, how: ShuffleType,
               rounds: seq<seq<Kind>>)
    returns (handed: seq<Handed>, exhausted: bool)
    ensures NoneTwice(handed)
    ensures Within(handed, if epochs > 0 then epochs else 1, Ids(joined) + Ids(local))
    ensures rounds != [] && exhausted && OnlyJoined(rounds[|rounds| - 1]) ==>
              forall e, id :: 1 <= e <= (if epochs > 0 then epochs else 1) && id in Ids(joined) ==>
                Handed(e, id) in handed
  {
    handed, exhausted := [], false;
    var epochNum: nat := if epochs > 0 then epochs else 1;
    var checkpoint: Allocated := map[];
    for n := 0 to |rounds|
      invariant Ledger(handed, checkpoint) && Within(handed, epochNum, Ids(joined) + Ids(local))
      invariant n == 0 ==> checkpoint == map[]
      invariant n > 0 && exhausted && OnlyJoined(rounds[n - 1]) ==>
                  AllIn(Ids(joined), 1, epochNum + 1, checkpoint)
    {
      hide Ledger, Within, AllIn, CoveredBy;
      var v := new DataVisitor(joined, local, hasLocal, epochs, how);
      if n > 0 {
        v.Restore(checkpoint);
        assert v.given == checkpoint by {
          MergeNothing(checkpoint);
        }
      }
      var taken;
      taken, exhausted := Serve(v, rounds[n], handed);
      handed := handed + taken;
      checkpoint := v.Dump();
    }
  }

  lemma MergeNothing(a: Allocated)
    ensures Merge(map[], a) == a
  {
    var m := Merge(map[], a);
    assert m.Keys == a.Keys;
    assert forall e :: e in a ==> m[e] == a[e];
  }

  // ---------------------------------------------------------------- without shuffling

  /** All blocks in order, as handed out in one epoch. */
  function OneEpoch(blocks: seq<Block>, epoch: nat): (r: seq<Handed>)
    ensures |r| == |blocks|
  {
    seq(|blocks|, i requires 0 <= i < |blocks| => Handed(epoch, blocks[i].id))
  }

  /** All epochs up to `last`. */
  function Epochs(blocks: seq<Block>, last: nat): seq<Handed> {
    if last == 0 then [] else Epochs(blocks, last - 1) + OneEpoch(blocks, last)
  }

  ghost predicate Distinct(blocks: seq<Block>) {
    forall i, j :: 0 <= i < j < |blocks| ==> blocks[i].id != blocks[j].id
  }

  /** Exactly the epochs before `epoch`, and the first `index` blocks of this one, are allocated. */
  ghost predicate UpTo(blocks: seq<Block>, epoch: nat, index: nat, a: Allocated) {
    forall e: nat, i :: 0 <= i < |blocks| ==>
      (Has(a, e, blocks[i].id) <==> 1 <= e < epoch || (e == epoch && i < index))
  }

  lemma AllInAt(ids: set<int>, first: nat, end: nat, a: Allocated, epoch: nat, id: int)
    requires AllIn(ids, first, end, a) && id in ids
    ensures first <= epoch < end ==> Has(a, epoch, id)
  {
  }

  /** Where the next block is, seen from what is allocated. */
  lemma NextInOrder(blocks: seq<Block>, epoch: nat, index: nat, a: Allocated, epoch': nat, place: nat)
    requires Distinct(blocks) && 1 <= epoch <= epoch' && index <= |blocks| && place < |blocks|
    requires UpTo(blocks, epoch, index, a) && !Has(a, epoch', blocks[place].id)
    requires AllIn(Ids(blocks), 1, epoch', a)
    requires forall i :: (if epoch' == epoch then index else 0) <= i < place ==>
               Has(Allocate(a, epoch', blocks[place].id), epoch', blocks[i].id)
    ensures if index < |blocks| then epoch' == epoch && place == index else epoch' == epoch + 1 && place == 0
    ensures UpTo(blocks, epoch', place + 1, Allocate(a, epoch', blocks[place].id))
  {
    IdIn(blocks, 0);
    if index < |blocks| {
      IdIn(blocks, index);
      AllInAt(Ids(blocks), 1, epoch', a, epoch, blocks[index].id);
    } else {
      AllInAt(Ids(blocks), 1, epoch', a, epoch + 1, blocks[0].id);
    }
    hide AllIn, Ids;
  }

  lemma HandedInOrder(blocks: seq<Block>, epoch: nat, index: nat)
    requires 1 <= epoch && index < |blocks|
    ensures Epochs(blocks, epoch - 1) + OneEpoch(blocks, epoch)[..index] + [Handed(epoch, blocks[index].id)]
         == Epochs(blocks, epoch - 1) + OneEpoch(blocks, epoch)[..index + 1]
  {
    hide Epochs;
    var one := OneEpoch(blocks, epoch);
    assert one[..index + 1] == one[..index] + [one[index]];
  }

  /** At the end of an epoch the next one begins. */
  lemma EpochEnds(blocks: seq<Block>, epoch: nat)
    requires 1 <= epoch
    ensures Epochs(blocks, epoch - 1) + OneEpoch(blocks, epoch)[..|blocks|]
         == Epochs(blocks, epoch) + OneEpoch(blocks, epoch + 1)[..0]
  {
    assert OneEpoch(blocks, epoch)[..|blocks|] == OneEpoch(blocks, epoch);
  }

  lemma InGivenOrder(before: seq<Block>, after: seq<Block>)
    requires ShuffledAs(NoShuffle, before, after)
    ensures after == before
  {
  }

  lemma NothingIsOut(blocks: seq<Block>)
    ensures UpTo(blocks, 1, 0, map[]) && Epochs(blocks, 0) + OneEpoch(blocks, 1)[..0] == []
  {
  }

  lemma {:induction false} EpochsGrow(blocks: seq<Block>, epoch: nat, last: nat)
    requires epoch <= last
    ensures Epochs(blocks, epoch) <= Epochs(blocks, last)
    decreases last
  {
    if epoch < last {
      EpochsGrow(blocks, epoch, last - 1);
    }
  }

  lemma {:induction false} NothingInEpochs(blocks: seq<Block>, last: nat)
    requires blocks == []
    ensures Epochs(blocks, last) == []
  {
    if last > 0 {
      NothingInEpochs(blocks, last - 1);
    }
  }

  /** When everything is allocated, everything has gone out. */
  lemma EverythingIsOut(blocks: seq<Block>, epoch: nat, index: nat, a: Allocated, last: nat)
    requires 1 <= epoch <= last && index <= |blocks| && UpTo(blocks, epoch, index, a)
    requires AllIn(Ids(blocks), 1, last + 1, a)
    ensures Epochs(blocks, epoch - 1) + OneEpoch(blocks, epoch)[..index] == Epochs(blocks, last)
  {
    if blocks == [] {
      NothingInEpochs(blocks, epoch - 1);
      NothingInEpochs(blocks, last);
    } else {
      IdIn(blocks, |blocks| - 1);
      assert Has(a, last, blocks[|blocks| - 1].id);
      assert OneEpoch(blocks, epoch)[..index] == OneEpoch(blocks, epoch);
    }
  }

  lemma EarlierEpochs(blocks: seq<Block>, index: nat, epoch: nat, before: Allocated, after: Allocated)
    requires index <= |blocks| && CoveredBy(blocks, index, 1, epoch, after)
    requires forall e, id :: Has(after, e, id) && e != epoch ==> Has(before, e, id)
    ensures AllIn(Ids(blocks), 1, epoch, before)
  {
  }

  /** Without shuffling the joined blocks go out in the order given, epoch after epoch. */
  method TakeInOrder(joined: seq<Block>, epochs: int, n: nat) returns (handed: seq<Handed>)
    requires Distinct(joined)
    ensures var all := Epochs(joined, if epochs > 0 then epochs else 1);
            handed <= all && (|handed| == n || (|handed| < n && handed == all))
  {
    hide Ids, CoveredBy, AllIn, Has, Epochs, OneEpoch, UpTo, ShuffledAs, Distinct;
    var v := new DataVisitor(joined, [], false, epochs, NoShuffle);
    handed := [];
    ghost var index: nat := 0;
    InGivenOrder(joined, v.joined);
    NothingIsOut(joined);
    while |handed| < n
      invariant v.Valid() && v.joined == joined && v.how == NoShuffle && v.joinedIndex == index && v.Covered(Joined)
      invariant UpTo(joined, v.epoch, index, v.given) && index <= |joined| && |handed| <= n
      invariant handed == Epochs(joined, v.epoch - 1) + OneEpoch(joined, v.epoch)[..index]
      decreases n - |handed|
    {
      ghost var epoch, a := v.epoch, v.given;
      var r := v.Next(false, Joined);
      if r == Stop {
        EverythingIsOut(joined, epoch, index, a, v.epochNum);
        return;
      }
      ghost var place := v.joinedIndex - 1;
      InGivenOrder(joined, v.joined);
      EarlierEpochs(joined, v.joinedIndex, v.epoch, a, v.given);
      NextInOrder(joined, epoch, index, a, v.epoch, place);
      if index == |joined| {
        EpochEnds(joined, epoch);
      }
      HandedInOrder(joined, v.epoch, place);
      index := place + 1;
      handed := handed + [r.block];
    }
    SomeEpochs(joined, v.epoch, index, v.epochNum);
  }

  lemma SomeEpochs(blocks: seq<Block>, epoch: nat, index: nat, last: nat)
    requires 1 <= epoch <= last && index <= |blocks|
    ensures Epochs(blocks, epoch - 1) + OneEpoch(blocks, epoch)[..index] <= Epochs(blocks, last)
  {
    EpochsGrow(blocks, epoch, last);
  }

  /** The only block of its kind goes out in the first epoch in which it is missing. */
  method NextOf(v: DataVisitor, k: Kind, id: int, since: nat, epoch: nat) returns (block: Handed)
    requires v.Valid() && 1 <= since <= v.epoch <= epoch <= v.epochNum && (k == Local ==> v.hasLocal)
    requires Ids(v.Blocks(k)) == {id} && v.CoveredSince(k, since)
    requires AllIn({id}, since, epoch, v.given) && !Has(v.given, epoch, id)
    modifies v
    ensures v.Valid() && Ids(v.joined) == old(Ids(v.joined)) && Ids(v.local) == old(Ids(v.local)) && v.epoch == epoch
    ensures block == Handed(epoch, id) && v.given == Allocate(old(v.given), epoch, id) && v.CoveredSince(k, since)
    ensures epoch > old(v.epoch) ==> v.CoveredSince(Other(k), epoch)
  {
    var r := v.Next(false, k, since);
    block := r.block;
  }

  /** With both kinds mixed, completeness is lost exactly when an epoch moves on before the other kind is done (the
      contract of `Next`), and that happens: here joined blocks are exhausted although the only one never went out in
      the first epoch. */
  method LocalRequestsSkipJoined(how: ShuffleType) returns (handed: seq<Handed>, last: Outcome)
    ensures handed == [Handed(1, 2), Handed(2, 2), Handed(2, 1)] && last == Stop
  {
    var v := new DataVisitor([Block(1, 0)], [Block(2, 0)], true, 2, how);
    assert Ids([Block(1, 0)]) == {1} && Ids([Block(2, 0)]) == {2};
    assert v.Covered(Local);
    var a := NextOf(v, Local, 2, 1, 1);
    var b := NextOf(v, Local, 2, 1, 2);
    var c := NextOf(v, Joined, 1, 2, 2);
    last := v.Next(false, Joined, 2);
    handed := [a, b, c];
  }
}
