/** What a dump round achieves: it dumps everything, and keeps its files within the threshold. */
module DumpRounds {
  import opened Concatenation
  import opened Wrappers
  import opened ExampleIdDumper

  // ---------------------------------------------------------------- a round ends with everything dumped

  ghost predicate NoneEmpty(flying: seq<Batch>) {
    forall b :: b in flying ==> b.ids != []
  }

  /** The sync has finished, and no empty batch is in the way. */
  ghost predicate Finishing(s: System, o: Options) {
    Consistent(s, o) && s.finished && NoneEmpty(s.flying)
  }

  function Batches(d: Option<Dumper>): nat {
    if d.None? then 0 else d.value.batches
  }

  /** Batches that are not yet dumped. */
  function Beyond(s: System): nat {
    match Evict(s.flying, NextIndex(s.anchor))
    case None => 0
    case Some(left) => |left|
  }

  /** An upper bound on the steps the round still takes. */
  function Remaining(s: System): nat {
    var u, k := |s.flying|, Batches(s.dumper);
    var rest := if k <= u then u - k else 0;
    match s.stage
    case Idle => 0
    case SyncEvict => 10 * Beyond(s) + 3
    case SyncReset => 10 * u + 2
    case Looping => 10 * rest + if k == 0 then 1 else if rest > 0 then 5 else 7
    case Checking => 10 * rest + if k > 0 then 6 else 2
    case Closing => 10 * rest + 5
    case Anchoring(_) => 10 * rest + 4
    case Evicting => 10 * Beyond(s) + 3
    case Resetting => 10 * u + 2
  }

  lemma {:induction false} EvictLeaves(bs: seq<Batch>, next: nat)
    requires NoneEmpty(bs) && Evict(bs, next).Some?
    ensures |Evict(bs, next).value| <= |bs| && NoneEmpty(Evict(bs, next).value)
  {
    if bs != [] && bs[0].End() <= next {
      EvictLeaves(bs[1..], next);
    }
  }

  /** With no empty batches, evicting up to the end of the first `k` leaves the others. */
  lemma {:induction false} EvictDumpedOnes(bs: seq<Batch>, from: nat, k: nat)
    requires Chained(bs, from) && NoneEmpty(bs) && k <= |bs|
    ensures Evict(bs, from + |Ids(bs[..k])|) == Some(bs[k..])
    decreases |bs|
  {
    if bs != [] {
      assert bs[0] in bs && NoneEmpty(bs[1..]);
      if k > 0 {
        EvictDumpedOnes(bs[1..], bs[0].End(), k - 1);
        assert bs[..k][1..] == bs[1..][..k - 1] && bs[1..][k - 1..] == bs[k..];
      } else {
        assert bs[..0] == [] && bs[0..] == bs;
      }
    }
  }

  lemma FlyingHead(s: System, o: Options)
    requires Finishing(s, o)
    ensures !EmptyHead(s.flying) && Evict(s.flying, NextIndex(s.anchor)).Some?
  {
    assert s.flying != [] ==> s.flying[0] in s.flying;
    hide FilesOk, DumpedOk, StageOk, Base;
  }

  /** The dumper at work: it is at a batch that flies, and gets past it. */
  lemma AtWork(s: System, o: Options)
    requires Finishing(s, o) && s.stage.Looping?
    ensures var k := Batches(s.dumper);
            && k <= |s.flying| && (s.flying == [] ==> s.dumper.None?)
            && DumpOne(s).flying == s.flying && DumpOne(s).accepted == s.accepted && DumpOne(s).stage == Checking
            && Batches(DumpOne(s).dumper) == if k < |s.flying| then k + 1 else k
  {
    FlyingHead(s, o);
    var base, k := Base(s.flying, s.nextIndex), Batches(s.dumper);
    assert Working(s.flying, base, s.anchor, s.dumper) && Chained(s.flying, base);
    hide FilesOk, DumpedOk, FlyingOk, Consistent, Base, Evict;
    if k < |s.flying| {
      assert s.flying[k] in s.flying;
      WorkingDump(s.flying, base, s.anchor, s.dumper);
    }
  }

  lemma LoopShrinks(s: System, due: bool, o: Options)
    requires Finishing(s, o) && s.stage.Looping?
    ensures var s' := Step(s, Proceed(due), o);
            && Remaining(s') < Remaining(s) && s'.flying == s.flying && s'.accepted == s.accepted
            && (s'.stage.Idle? ==> s'.flying == [] && !s'.stale)
  {
    hide Consistent, DumpOne, NoneEmpty, Evict, UpdateAnchor;
    AtWork(s, o);
  }

  lemma CheckShrinks(s: System, due: bool, o: Options)
    requires Finishing(s, o) && s.stage.Checking?
    ensures var s' := Step(s, Proceed(due), o);
            Remaining(s') < Remaining(s) && !s'.stage.Idle? && s'.flying == s.flying && s'.accepted == s.accepted
  {
    FlyingHead(s, o);
    var base := Base(s.flying, s.nextIndex);
    assert Working(s.flying, base, s.anchor, s.dumper);
    hide FilesOk, DumpedOk, FlyingOk, Consistent, Base, Evict, Dumper.Full;
  }

  lemma CloseShrinks(s: System, due: bool, o: Options)
    requires Finishing(s, o) && s.stage.Closing?
    ensures var s' := Step(s, Proceed(due), o);
            Remaining(s') < Remaining(s) && !s'.stage.Idle? && s'.flying == s.flying && s'.accepted == s.accepted
  {
    FlyingHead(s, o);
    CloseBreaks(s, due, o);
    var base, d := Base(s.flying, s.nextIndex), s.dumper.value;
    assert Working(s.flying, base, s.anchor, s.dumper) && Chained(s.flying, base);
    WorkingFinish(s.flying, base, s.anchor, d);
    hide FilesOk, DumpedOk, FlyingOk, Consistent, Base, Evict;
  }

  lemma AnchorShrinks(s: System, due: bool, o: Options)
    requires Finishing(s, o) && s.stage.Anchoring?
    ensures var s' := Step(s, Proceed(due), o);
            Remaining(s') < Remaining(s) && !s'.stage.Idle? && s'.flying == s.flying && s'.accepted == s.accepted
  {
    AnchorHolds(s, due, o);
    var base, d := Base(s.flying, s.nextIndex), s.dumper.value;
    assert Working(s.flying, base, s.anchor, s.dumper) && Chained(s.flying, base) && Renamed(s.files, d, s.stage.next);
    EvictDumpedOnes(s.flying, base, d.batches);
    AnchorMoves(s.flying, base, s.anchor, s.files, s.dumped, s.accepted, d, s.stage.next);
    hide FilesOk, DumpedOk, FlyingOk, Consistent, Base, Evict, UpdateAnchor;
  }

  lemma EvictShrinks(s: System, due: bool, o: Options)
    requires Finishing(s, o) && (s.stage.SyncEvict? || s.stage.Evicting?)
    ensures var s' := Step(s, Proceed(due), o);
            && Remaining(s') < Remaining(s) && !s'.stage.Idle? && NoneEmpty(s'.flying) && s'.accepted == s.accepted
  {
    hide Consistent, Evict, NoneEmpty, NextIndex, EmptyHead;
    FlyingHead(s, o);
    EvictLeaves(s.flying, NextIndex(s.anchor));
  }

  lemma StepShrinks(s: System, due: bool, o: Options)
    requires Finishing(s, o) && !s.stage.Idle?
    ensures var s' := Step(s, Proceed(due), o);
            && Finishing(s', o) && Remaining(s') < Remaining(s) && s'.accepted == s.accepted
            && (s'.stage.Idle? ==> s'.flying == [] && !s'.stale) && s'.broken == s.broken
  {
    FlyingHead(s, o);
    BreaksOnEmptyHead(s, Proceed(due), o);
    StepIsSafe(s, Proceed(due), o);
    StaysFinished(s, due, o);
    match s.stage
    case Looping => LoopShrinks(s, due, o);
    case Checking => CheckShrinks(s, due, o);
    case Closing => CloseShrinks(s, due, o);
    case Anchoring(_) => AnchorShrinks(s, due, o);
    case SyncEvict => EvictShrinks(s, due, o);
    case Evicting => EvictShrinks(s, due, o);
    case _ => hide Consistent;
  }

  lemma StaysFinished(s: System, due: bool, o: Options)
    requires s.finished
    ensures Step(s, Proceed(due), o).finished
  {
    hide NeedDump, NeedFinish, UpdateAnchor, Evict;
  }

  /** `due` is what the clock says at each step. */
  function Proceeds(due: seq<bool>): seq<Action> {
    seq(|due|, i requires 0 <= i < |due| => Proceed(due[i]))
  }

  lemma {:induction false} IdleStays(s: System, due: seq<bool>, o: Options)
    requires s.stage.Idle?
    ensures RunFrom(s, Proceeds(due), o) == s
  {
    if due != [] {
      assert Proceeds(due)[..|due| - 1] == Proceeds(due[..|due| - 1]);
      IdleStays(s, due[..|due| - 1], o);
    }
  }

  /** A round that is under way when the sync has finished dumps everything, whatever the options and the clock: left
      alone long enough it ends with nothing flying, and the anchored files are the accepted ids. */
  lemma {:induction false} RoundCompletes(s: System, due: seq<bool>, o: Options)
    requires Finishing(s, o) && (s.stage.Idle? ==> s.flying == [] && !s.stale) && |due| >= Remaining(s)
    ensures var s' := RunFrom(s, Proceeds(due), o);
            && s'.stage.Idle? && !s'.stale && s'.flying == [] && s'.accepted == s.accepted
            && Flat(s'.dumped) == s.accepted && s'.broken == s.broken
    decreases |due|
  {
    hide *;
    if s.stage.Idle? {
      IdleStays(s, due, o);
      AllDumped(s, o);
    } else {
      StageRemains(s);
      StepShrinks(s, due[0], o);
      var s1 := Step(s, Proceed(due[0]), o);
      ProceedsCons(due);
      RunPrepend(s, Proceed(due[0]), Proceeds(due[1..]), o);
      RoundCompletes(s1, due[1..], o);
    }
  }

  lemma StageRemains(s: System)
    requires !s.stage.Idle?
    ensures Remaining(s) > 0
  {
  }

  lemma ProceedsCons(due: seq<bool>)
    requires due != []
    ensures Proceeds(due) == [Proceed(due[0])] + Proceeds(due[1..])
  {
  }

  lemma AllDumped(s: System, o: Options)
    requires Finishing(s, o) && s.flying == []
    ensures Flat(s.dumped) == s.accepted
  {
    hide FilesOk, StageOk;
    assert s.accepted[..|s.accepted|] == s.accepted;
  }

  /** From any state after the sync has finished, with no empty batch flying: the round under way, or the next one,
      dumps everything, and no check fails. */
  lemma EverythingGetsDumped(before: seq<Action>, due: seq<bool>, o: Options)
    requires var s := After(before, o); s.finished && NoneEmpty(s.flying)
    requires var s := After(before, o);
             var begun := if s.stage.Idle? then Step(s, BeginRound, o) else s;
             |due| >= Remaining(begun)
    ensures var s := After(before, o);
            var begun := if s.stage.Idle? then Step(s, BeginRound, o) else s;
            var s' := RunFrom(begun, Proceeds(due), o);
            && s'.stage.Idle? && s'.flying == [] && s'.accepted == s.accepted && Flat(s'.dumped) == s.accepted
            && s'.broken == s.broken
  {
    EveryRunIsConsistent(before, o);
    var s := After(before, o);
    hide After, Consistent, Remaining, RunFrom;
    if s.stage.Idle? {
      StepIsSafe(s, BeginRound, o);
      RoundCompletes(Step(s, BeginRound, o), due, o);
    } else {
      RoundCompletes(s, due, o);
    }
  }

  // ---------------------------------------------------------------- how large the files get

  /** The dumper's file is within the threshold, if there is one. */
  ghost predicate Small(d: Option<Dumper>, threshold: int) {
    threshold > 0 && d.Some? ==> |d.value.written| <= threshold
  }

  /** ... without its last batch. */
  ghost predicate SmallBut(flying: seq<Batch>, d: Option<Dumper>, threshold: int) {
    threshold > 0 && d.Some? && 0 < d.value.batches <= |flying| ==> |Ids(flying[..d.value.batches - 1])| <= threshold
  }

  /** Why a file is closed when there is no dump interval: it has outgrown the threshold, or everything is in it. */
  ghost predicate Grown(s: System, threshold: int) {
    s.dumper.Some? ==>
      || (threshold > 0 && |s.dumper.value.written| > threshold)
      || (s.finished && s.dumper.value.batches == |s.flying|)
  }

  ghost predicate Sized(s: System, o: Options) {
    match s.stage
    case Idle => !s.stale ==> Small(s.dumper, o.threshold)
    case Looping => Small(s.dumper, o.threshold)
    case Checking => SmallBut(s.flying, s.dumper, o.threshold)
    case Closing => SmallBut(s.flying, s.dumper, o.threshold) && (o.interval <= 0 ==> Grown(s, o.threshold))
    case Anchoring(_) => SmallBut(s.flying, s.dumper, o.threshold) && (o.interval <= 0 ==> Grown(s, o.threshold))
    case _ => true
  }

  /** Writing one more batch: what was there before is within the threshold. */
  lemma DumpIsSized(s: System, o: Options)
    requires Consistent(s, o) && Small(s.dumper, o.threshold) && s.stage.Looping?
    ensures DumpOne(s).stage == Checking && SmallBut(DumpOne(s).flying, DumpOne(s).dumper, o.threshold)
  {
    var base, k := Base(s.flying, s.nextIndex), Batches(s.dumper);
    assert Working(s.flying, base, s.anchor, s.dumper) && Chained(s.flying, base);
    assert s.flying[..0] == [] && Ids([]) == [];
    hide FilesOk, DumpedOk, FlyingOk, Consistent, Base, Evict, Chained;
    if k > 0 {
      ShorterIds(s.flying, k);
    }
    if k < |s.flying| {
      WorkingDump(s.flying, base, s.anchor, s.dumper);
    }
    hide Ids;
  }

  lemma LoopIsSized(s: System, due: bool, o: Options)
    requires Consistent(s, o) && Sized(s, o) && s.stage.Looping?
    ensures Sized(Step(s, Proceed(due), o), o)
  {
    hide Consistent, DumpOne, Small, SmallBut, UpdateAnchor, Evict, NeedDump;
    DumpIsSized(s, o);
  }

  lemma ShorterIds(bs: seq<Batch>, k: nat)
    requires 0 < k <= |bs|
    ensures |Ids(bs[..k - 1])| <= |Ids(bs[..k])|
  {
    IdsPrefix(bs[..k], k - 1);
    assert bs[..k][..k - 1] == bs[..k - 1];
  }

  lemma CheckIsSized(s: System, due: bool, o: Options)
    requires Consistent(s, o) && Sized(s, o) && s.stage.Checking?
    ensures Sized(Step(s, Proceed(due), o), o)
  {
    hide FilesOk, DumpedOk, FlyingOk, Base;
  }

  lemma StepIsSized(s: System, a: Action, o: Options)
    requires Consistent(s, o) && Sized(s, o)
    ensures Sized(Step(s, a, o), o)
  {
    hide Consistent, Evict, UpdateAnchor, SmallBut, DumpOne, NeedDump, NeedFinish;
    UnderWay(s, o);
    match a
    case Accept(b) => AcceptIsSized(s, b, o);
    case Proceed(due) =>
      match s.stage {
        case Looping => LoopIsSized(s, due, o);
        case Checking => CheckIsSized(s, due, o);
        case _ =>
      }
    case _ =>
  }

  lemma UnderWay(s: System, o: Options)
    requires Consistent(s, o)
    ensures !s.stage.Idle? ==> s.stale
    ensures s.stage.Checking? || s.stage.Closing? || s.stage.Anchoring? ==> Batches(s.dumper) <= |s.flying|
  {
    hide FilesOk, DumpedOk, FlyingOk, Base;
  }

  lemma AcceptIsSized(s: System, b: Batch, o: Options)
    requires Consistent(s, o) && Sized(s, o)
    ensures Sized(Step(s, Accept(b), o), o)
  {
    hide Consistent, Ids;
    UnderWay(s, o);
    assert s.dumper.Some? && 0 < s.dumper.value.batches <= |s.flying| ==>
      (s.flying + [b])[..s.dumper.value.batches - 1] == s.flying[..s.dumper.value.batches - 1];
  }

  lemma {:induction false} EveryRunIsSized(actions: seq<Action>, o: Options)
    ensures Sized(After(actions, o), o)
  {
    if actions != [] {
      EveryRunIsSized(actions[..|actions| - 1], o);
      EveryRunIsConsistent(actions[..|actions| - 1], o);
      StepIsSized(After(actions[..|actions| - 1], o), actions[|actions| - 1], o);
    }
  }

  /** In every run: a file that is closed holds the first of the flying batches, and without the last of these no more
      ids than a positive threshold says; without a dump interval it holds more ids than the threshold, or everything
      that was left once the sync had finished. */
  lemma FilesAreBounded(actions: seq<Action>, o: Options)
    requires After(actions, o).stage.Closing?
    ensures var s := After(actions, o);
            && s.dumper.Some?
            && var k, written := s.dumper.value.batches, s.dumper.value.written;
               && k <= |s.flying| && written == Ids(s.flying[..k])
               && (o.threshold > 0 && k > 0 ==> |Ids(s.flying[..k - 1])| <= o.threshold)
               && (o.interval <= 0 ==> (o.threshold > 0 && |written| > o.threshold) || (s.finished && k == |s.flying|))
  {
    EveryRunIsConsistent(actions, o);
    EveryRunIsSized(actions, o);
    hide After, FilesOk, DumpedOk, FlyingOk, Base;
  }

  /** With a dump interval an open file is closed once it is due; without one the clock does not matter. */
  lemma ClosedWhenDue(s: System, o: Options)
    ensures o.interval > 0 && s.stage.Checking? && s.dumper.Some? ==> Step(s, Proceed(true), o).stage.Closing?
    ensures o.interval <= 0 ==> Step(s, Proceed(true), o) == Step(s, Proceed(false), o)
  {
    hide Evict, UpdateAnchor, DumpOne, Dumper.Full;
  }
}
