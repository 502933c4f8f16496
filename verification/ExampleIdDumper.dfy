/** Dumping accepted example ids into numbered files, with an anchor that survives crashes. */
module ExampleIdDumper {
  import opened Concatenation
  import opened Wrappers

  /** Example ids are opaque here. */
  type Id = int

  datatype Batch = Batch(begin: nat, ids: seq<Id>) {
    function End(): nat { begin + |ids| }
  }

  /** The last dumped file, as stored in the key-value store. */
  datatype Anchor = Anchor(process: nat, start: nat, end: nat)

  /** Files are named by process and start index. */
  type Files = map<(nat, nat), seq<Id>>

  function NextIndex(anchor: Option<Anchor>): nat {
    if anchor.None? then 0 else anchor.value.end + 1
  }

  function NextProcess(anchor: Option<Anchor>): nat {
    if anchor.None? then 0 else anchor.value.process + 1
  }

  // ---------------------------------------------------------------- one dumper

  /** A dumper writes ids from `start` on into a temporary file. */
  datatype Dumper = Dumper(process: nat, start: nat, end: int, batches: nat, written: seq<Id>) {

    /** Empty batches are skipped, and not counted. */
    function Dump(b: Batch): Option<Dumper> {
      if b.ids == [] then Some(this)
      else if end + 1 != b.begin then None
      else Some(Dumper(process, start, end + |b.ids|, batches + 1, written + b.ids))
    }

    predicate Full(threshold: int) {
      threshold > 0 && end - start + 1 > threshold
    }

    /** Closing a dumper yields its file, or fails the check that something was dumped. */
    function Finish(): Option<Anchor> {
      if end - start + 1 > 0 then Some(Anchor(process, start, end)) else None
    }
  }

  class DumperObject {
    const process: nat
    const start: nat
    var end: int
    var batches: nat
    var written: seq<Id>

    function Value(): Dumper
      reads this
    {
      Dumper(process, start, end, batches, written)
    }

    constructor (process: nat, start: nat)
      ensures Value() == Dumper(process, start, start - 1, 0, [])
    {
      this.process, this.start := process, start;
      end, batches, written := start - 1, 0, [];
    }

    method DumpExampleIdBatch(b: Batch) returns (ok: bool)
      modifies this
      ensures if ok then old(Value()).Dump(b) == Some(Value())
              else old(Value()).Dump(b).None? && Value() == old(Value())
    {
      if |b.ids| == 0 {
        return true;
      }
      if end + 1 != b.begin {
        return false;
      }
      written := written + b.ids;
      end := end + |b.ids|;
      batches := batches + 1;
      return true;
    }
  }

  // ---------------------------------------------------------------- the flying batches

  /** The batches left once those below `next` are dropped; fails when `next` falls inside a batch. */
  function Evict(flying: seq<Batch>, next: nat): Option<seq<Batch>>
    decreases |flying|
  {
    if flying == [] then Some([])
    else if flying[0].End() > next then (if flying[0].begin == next then Some(flying) else None)
    else Evict(flying[1..], next)
  }

  class FlyingBatches {
    var flying: seq<Batch>
    var nextIndex: nat
    var syncFinished: bool

    constructor (anchor: Option<Anchor>)
      ensures flying == [] && nextIndex == NextIndex(anchor) && !syncFinished
    {
      flying, nextIndex, syncFinished := [], NextIndex(anchor), false;
    }

    /** `add_example_id_batch`; fails once the sync has finished. */
    method AddExampleIdBatch(b: Batch) returns (r: Option<(bool, nat)>)
      modifies this`flying, this`nextIndex
      ensures r == if syncFinished then None else Some((b.begin == old(nextIndex), nextIndex))
      ensures if !syncFinished && b.begin == old(nextIndex)
              then flying == old(flying) + [b] && nextIndex == b.End()
              else flying == old(flying) && nextIndex == old(nextIndex)
    {
      if syncFinished {
        return None;
      }
      if b.begin != nextIndex {
        return Some((false, nextIndex));
      }
      flying := flying + [b];
      nextIndex := b.begin + |b.ids|;
      return Some((true, nextIndex));
    }

    /** `_evict_dumped_example_id_batch`. */
    method EvictDumped(next: nat) returns (ok: bool)
      modifies this`flying
      ensures Evict(old(flying), next) == if ok then Some(flying) else None
      ensures !ok ==> flying == old(flying)
    {
      var skip := 0;
      while skip < |flying|
        invariant 0 <= skip <= |flying| && Evict(flying, next) == Evict(flying[skip..], next)
      {
        if flying[skip].End() > next {
          if flying[skip].begin != next {
            return false;
          }
          break;
        }
        assert flying[skip..][1..] == flying[skip + 1..];
        skip := skip + 1;
      }
      flying := flying[skip..];
      return true;
    }
  }

  // ---------------------------------------------------------------- the anchor

  datatype AnchorError = FileMissing | BadRange | BadStart | NotIncremental | NotConsecutive

  /** The checks of `update_dumped_example_id_anchor`, in the order they are made. */
  function UpdateAnchor(anchor: Option<Anchor>, files: Files, a: Anchor): Option<AnchorError> {
    if (a.process, a.start) !in files then Some(FileMissing)
    else if a.start > a.end then Some(BadRange)
    else if anchor.None? then (if a.start != 0 || a.process != 0 then Some(BadStart) else None)
    else if a.start <= anchor.value.end then Some(NotIncremental)
    else if a.process != anchor.value.process + 1 then Some(NotConsecutive)
    else None
  }

  /** The anchor only ever moves to an existing, non-empty file of the next process that starts beyond all anchored
      ids; the first one must start at 0. */
  lemma AnchorMovesForward(anchor: Option<Anchor>, files: Files, a: Anchor)
    ensures UpdateAnchor(anchor, files, a).None? <==>
              && (a.process, a.start) in files && a.start <= a.end && a.process == NextProcess(anchor)
              && NextIndex(anchor) <= a.start && (anchor.None? ==> a.start == 0)
  {
  }

  /** And what is wrong with the others. */
  lemma WrongAnchors(anchor: Option<Anchor>, files: Files, a: Anchor)
    ensures var e := UpdateAnchor(anchor, files, a);
            var there, inRange := (a.process, a.start) in files, a.start <= a.end;
            && (e == Some(FileMissing) <==> !there) && (e == Some(BadRange) <==> there && !inRange)
            && (e == Some(BadStart) <==> there && inRange && anchor.None? && !(a.start == 0 && a.process == 0))
            && (e == Some(NotIncremental) <==> there && inRange && anchor.Some? && a.start <= anchor.value.end)
            && (e == Some(NotConsecutive) <==>
                  && there && inRange && anchor.Some? && anchor.value.end < a.start
                  && a.process != anchor.value.process + 1)
  {
  }

  /** The part of the example id manager that owns the anchor. */
  class AnchorStore {
    var stored: Option<Anchor>

    constructor ()
      ensures stored == None
    {
      stored := None;
    }

    method Update(files: Files, a: Anchor) returns (failure: Option<AnchorError>)
      modifies this
      ensures failure == UpdateAnchor(old(stored), files, a)
      ensures stored == if failure.None? then Some(a) else old(stored)
    {
      if (a.process, a.start) !in files {
        return Some(FileMissing);
      }
      if a.start > a.end {
        return Some(BadRange);
      }
      if stored.None? {
        if a.start != 0 || a.process != 0 {
          return Some(BadStart);
        }
      } else {
        if a.start <= stored.value.end {
          return Some(NotIncremental);
        }
        if a.process != stored.value.process + 1 {
          return Some(NotConsecutive);
        }
      }
      stored := Some(a);
      return None;
    }
  }

  // ---------------------------------------------------------------- runs

  /** Where the dump round stands.  Any point can be the last of a round. */
  datatype Stage =
    | Idle | SyncEvict | SyncReset | Looping | Checking | Closing | Anchoring(next: Anchor) | Evicting | Resetting

  /** `flying`, `nextIndex`, `dumper`, `stale` and `finished` are lost in a restart; `anchor` and `files` are not.
      `accepted` are all ids accepted and not lost, `dumped` the contents of the anchored files in order, and `broken`
      says that one of the program's own checks has failed. */
  datatype System = System(anchor: Option<Anchor>, files: Files, flying: seq<Batch>, nextIndex: nat,
                           dumper: Option<Dumper>, stale: bool, finished: bool, stage: Stage,
                           accepted: seq<Id>, dumped: seq<seq<Id>>, broken: bool)

  datatype Action =
    | Accept(batch: Batch)
    | FinishSync
    | BeginRound
    | Proceed(due: bool)
    | Abort(leftover: Option<Dumper>)
    | Restart

  function Start(): System {
    System(None, map[], [], 0, None, false, false, Idle, [], [], false)
  }

  predicate BatchesDone(s: System) {
    s.finished && (if s.dumper.None? then 0 else s.dumper.value.batches) == |s.flying|
  }

  /** The dump threshold and the dump interval; neither counts unless it is positive. */
  datatype Options = Options(threshold: int, interval: int)

  /** `due`: as much time has passed as the dump interval says. */
  predicate NeedFinish(s: System, o: Options, due: bool, batchesDone: bool) {
    s.dumper.Some? && (s.dumper.value.Full(o.threshold) || batchesDone || (o.interval > 0 && due))
  }

  predicate NeedDump(s: System, o: Options, due: bool) {
    |s.flying| > 0 || NeedFinish(s, o, due, s.finished)
  }

  /** `_dump_one_example_id_batch`. */
  function DumpOne(s: System): System {
    var k := if s.dumper.None? then 0 else s.dumper.value.batches;
    if k >= |s.flying| then s.(stage := Checking)
    else
      var d := if s.dumper.Some? then s.dumper.value
               else Dumper(NextProcess(s.anchor), NextIndex(s.anchor), NextIndex(s.anchor) - 1, 0, []);
      match d.Dump(s.flying[k])
      case None => s.(broken := true, dumper := Some(d))
      case Some(d') => s.(stage := Checking, dumper := Some(d'))
  }

  /** `_evict_dumped_example_id_batch`, with the check on the alignment. */
  function EvictFlying(s: System, then': Stage): System {
    match Evict(s.flying, NextIndex(s.anchor))
    case None => s.(broken := true)
    case Some(left) => s.(flying := left, stage := then')
  }

  function Step(s: System, a: Action, o: Options): System {
    match a
    case Accept(b) =>
      if s.finished || b.begin != s.nextIndex then s
      else s.(flying := s.flying + [b], nextIndex := b.End(), accepted := s.accepted + b.ids)
    case FinishSync => s.(finished := true)
    case BeginRound =>
      if !s.stage.Idle? then s
      else if s.stale then s.(stage := SyncEvict)
      else s.(stage := Looping, stale := true)
    case Abort(leftover) =>
      if s.stage.Idle? then s
      else s.(stage := Idle, dumper := leftover)
    case Restart =>
      System(s.anchor, s.files, [], NextIndex(s.anchor), None, false, false, Idle,
             if NextIndex(s.anchor) <= |s.accepted| then s.accepted[..NextIndex(s.anchor)] else s.accepted, s.dumped,
             s.broken)
    case Proceed(due) =>
      match s.stage
      case Idle => s
      case SyncEvict => EvictFlying(s, SyncReset)
      case SyncReset => s.(dumper := None, stage := Looping, stale := true)
      case Looping => if NeedDump(s, o, due) then DumpOne(s) else s.(stage := Idle, stale := false)
      case Checking => s.(stage := if NeedFinish(s, o, due, BatchesDone(s)) then Closing else Looping)
      case Closing =>
        if s.dumper.None? then s.(broken := true)
        else
          var d := s.dumper.value;
          (match d.Finish()
           case None => s.(broken := true)
           case Some(a) => s.(files := s.files[(d.process, d.start) := d.written], stage := Anchoring(a)))
      case Anchoring(a) =>
        if UpdateAnchor(s.anchor, s.files, a).Some? then s.(broken := true)
        else s.(anchor := Some(a), dumped := s.dumped + [s.files[(a.process, a.start)]], stage := Evicting)
      case Evicting => EvictFlying(s, Resetting)
      case Resetting => s.(dumper := None, stage := Looping)
  }

  /** The state after some more actions. */
  function RunFrom(s: System, actions: seq<Action>, o: Options): System {
    if actions == [] then s else Step(RunFrom(s, actions[..|actions| - 1], o), actions[|actions| - 1], o)
  }

  function After(actions: seq<Action>, o: Options): System {
    RunFrom(Start(), actions, o)
  }

  // ---------------------------------------------------------------- what every run keeps

  function Ids(bs: seq<Batch>): seq<Id> {
    if bs == [] then [] else bs[0].ids + Ids(bs[1..])
  }

  /** Batches one after the other from index `from`. */
  ghost predicate Chained(bs: seq<Batch>, from: nat)
    decreases |bs|
  {
    bs != [] ==> bs[0].begin == from && Chained(bs[1..], bs[0].End())
  }

  ghost predicate FileAt(files: Files, dumped: seq<seq<Id>>, i: nat)
    requires i < |dumped|
  {
    dumped[i] != [] && (i, StartOf(dumped, i)) in files && files[(i, StartOf(dumped, i))] == dumped[i]
  }

  ghost predicate Named(dumped: seq<seq<Id>>, k: (nat, nat)) {
    k.0 <= |dumped| && k.1 == StartOf(dumped, k.0)
  }

  /** The anchored files are there, cover [0, end] in order, and at most the next file is there besides. */
  ghost predicate FilesOk(anchor: Option<Anchor>, files: Files, dumped: seq<seq<Id>>) {
    && NextProcess(anchor) == |dumped| && NextIndex(anchor) == StartOf(dumped, |dumped|)
    && (forall i :: 0 <= i < |dumped| ==> FileAt(files, dumped, i))
    && (forall k :: k in files ==> Named(dumped, k))
  }

  /** Where the flying batches start. */
  function Base(flying: seq<Batch>, nextIndex: nat): nat {
    if flying == [] then nextIndex else flying[0].begin
  }

  /** The flying batches are the accepted ids from `base` on, and `next`, where the anchor ends, is the edge of one. */
  ghost predicate FlyingOk(flying: seq<Batch>, base: nat, next: nat, accepted: seq<Id>) {
    && base <= next <= |accepted| && Chained(flying, base) && Ids(flying) == accepted[base..]
    && Evict(flying, next).Some?
  }

  ghost predicate DumpedOk(dumped: seq<seq<Id>>, next: nat, accepted: seq<Id>) {
    next <= |accepted| && Flat(dumped) == accepted[..next]
  }

  /** The first flying batch is empty. */
  predicate EmptyHead(flying: seq<Batch>) {
    flying != [] && flying[0].ids == []
  }

  /** The dumper is at work on the flying batches, all of which are beyond the anchor; an empty first batch keeps it
      from writing anything. */
  ghost predicate Working(flying: seq<Batch>, base: nat, anchor: Option<Anchor>, dumper: Option<Dumper>) {
    && base == NextIndex(anchor)
    && (dumper.Some? ==>
          var d := dumper.value;
          && d.process == NextProcess(anchor) && d.start == NextIndex(anchor) && d.batches <= |flying|
          && d.written == Ids(flying[..d.batches]) && d.end == d.start + |d.written| - 1
          && (d.batches == 0 <==> EmptyHead(flying)))
  }

  /** The temporary file has got the name that the new anchor is going to refer to. */
  ghost predicate Renamed(files: Files, d: Dumper, a: Anchor) {
    && a.process == d.process && a.start == d.start && a.end == d.end
    && (a.process, a.start) in files && files[(a.process, a.start)] == d.written
  }

  ghost predicate StageOk(s: System, base: nat, o: Options) {
    && (!s.stage.Idle? ==> s.stale)
    && match s.stage
       case Idle => !s.stale ==> Working(s.flying, base, s.anchor, s.dumper)
       case SyncEvict => true
       case SyncReset => base == NextIndex(s.anchor)
       case Looping => Working(s.flying, base, s.anchor, s.dumper)
       case Checking => Working(s.flying, base, s.anchor, s.dumper)
       case Closing =>
         && Working(s.flying, base, s.anchor, s.dumper) && s.dumper.Some?
         && (s.dumper.value.batches == 0 ==> o.interval > 0)
       case Anchoring(a) =>
         && Working(s.flying, base, s.anchor, s.dumper) && s.dumper.Some? && s.dumper.value.batches > 0
         && Renamed(s.files, s.dumper.value, a)
       case Evicting => true
       case Resetting => base == NextIndex(s.anchor)
  }

  ghost predicate Consistent(s: System, o: Options) {
    && s.nextIndex == |s.accepted| && FilesOk(s.anchor, s.files, s.dumped)
    && DumpedOk(s.dumped, NextIndex(s.anchor), s.accepted)
    && FlyingOk(s.flying, Base(s.flying, s.nextIndex), NextIndex(s.anchor), s.accepted)
    && StageOk(s, Base(s.flying, s.nextIndex), o)
  }

  // ---------------------------------------------------------------- chains of batches

  lemma {:induction false} ChainedAppend(bs: seq<Batch>, from: nat, b: Batch)
    requires Chained(bs, from) && b.begin == from + |Ids(bs)|
    ensures Chained(bs + [b], from) && Ids(bs + [b]) == Ids(bs) + b.ids
  {
    if bs == [] {
      assert (bs + [b])[1..] == [];
    } else {
      ChainedAppend(bs[1..], bs[0].End(), b);
      assert (bs + [b])[1..] == bs[1..] + [b];
    }
  }

  lemma {:induction false} EvictAppend(bs: seq<Batch>, from: nat, b: Batch, next: nat)
    requires Chained(bs, from) && b.begin == from + |Ids(bs)| && from <= next <= from + |Ids(bs)|
    requires Evict(bs, next).Some?
    ensures Evict(bs + [b], next).Some?
  {
    if bs != [] && bs[0].End() <= next {
      assert (bs + [b])[1..] == bs[1..] + [b];
      EvictAppend(bs[1..], bs[0].End(), b, next);
    }
  }

  /** Evicting up to `next` leaves the batches from `next` on, the first of them not empty. */
  lemma {:induction false} EvictSplits(bs: seq<Batch>, from: nat, next: nat)
    requires Chained(bs, from) && from <= next <= from + |Ids(bs)| && Evict(bs, next).Some?
    ensures var left := Evict(bs, next).value;
            Chained(left, next) && Ids(left) == Ids(bs)[next - from..] && !EmptyHead(left)
  {
    if bs != [] && bs[0].End() <= next {
      EvictSplits(bs[1..], bs[0].End(), next);
      assert Ids(bs)[next - from..] == Ids(bs[1..])[next - bs[0].End()..];
    }
  }

  /** The edge of every batch is a place to evict up to. */
  lemma {:induction false} EvictAtEdge(bs: seq<Batch>, from: nat, k: nat)
    requires Chained(bs, from) && k <= |bs|
    ensures Evict(bs, from + |Ids(bs[..k])|).Some?
    decreases |bs|
  {
    if k > 0 {
      EvictAtEdge(bs[1..], bs[0].End(), k - 1);
      assert bs[..k][1..] == bs[1..][..k - 1];
    } else if bs != [] {
      assert bs[..k] == [] && bs[1..][..k] == [];
      if bs[0].ids == [] {
        EvictAtEdge(bs[1..], from, 0);
      }
    }
  }

  lemma {:induction false} ChainedAt(bs: seq<Batch>, from: nat, k: nat)
    requires Chained(bs, from) && k < |bs|
    ensures bs[k].begin == from + |Ids(bs[..k])|
    ensures Ids(bs[..k + 1]) == Ids(bs[..k]) + bs[k].ids
  {
    if k > 0 {
      ChainedAt(bs[1..], bs[0].End(), k - 1);
      assert bs[..k][1..] == bs[1..][..k - 1] && bs[..k + 1][1..] == bs[1..][..k];
    } else {
      assert bs[..1][1..] == [];
    }
  }

  /** The first `k` batches hold the first ids. */
  lemma {:induction false} IdsPrefix(bs: seq<Batch>, k: nat)
    requires k <= |bs|
    ensures Ids(bs[..k]) <= Ids(bs) && (k > 0 && bs[0].ids != [] ==> Ids(bs[..k]) != [])
  {
    if k > 0 {
      IdsPrefix(bs[1..], k - 1);
      assert bs[..k][1..] == bs[1..][..k - 1];
    }
  }

  // ---------------------------------------------------------------- files

  /** Renaming the temporary file of the next process. */
  lemma RenameKeepsFiles(anchor: Option<Anchor>, files: Files, dumped: seq<seq<Id>>, written: seq<Id>)
    requires FilesOk(anchor, files, dumped)
    ensures FilesOk(anchor, files[(NextProcess(anchor), NextIndex(anchor)) := written], dumped)
  {
    hide StartOf;
    var after := files[(NextProcess(anchor), NextIndex(anchor)) := written];
    forall i | 0 <= i < |dumped| ensures FileAt(after, dumped, i) {
      assert FileAt(files, dumped, i);
    }
  }

  /** Moving the anchor to that file. */
  lemma AnchorKeepsFiles(anchor: Option<Anchor>, files: Files, dumped: seq<seq<Id>>, a: Anchor)
    requires FilesOk(anchor, files, dumped) && (a.process, a.start) in files
    requires a.process == NextProcess(anchor) && a.start == NextIndex(anchor)
    requires files[(a.process, a.start)] != [] && a.end == a.start + |files[(a.process, a.start)]| - 1
    ensures FilesOk(Some(a), files, dumped + [files[(a.process, a.start)]])
    ensures UpdateAnchor(anchor, files, a).None?
  {
    hide StartOf;
    var w := files[(a.process, a.start)];
    var more := dumped + [w];
    forall i | 0 <= i <= |dumped| ensures StartOf(more, i) == StartOf(dumped, i) {
      StartOfMore(dumped, w, i);
    }
    StartOfMore(dumped, w, 0);
    forall i | 0 <= i < |more| ensures FileAt(files, more, i) {
      if i < |dumped| {
        assert FileAt(files, dumped, i);
      }
    }
    forall k | k in files ensures Named(more, k) {
      assert Named(dumped, k);
    }
  }

  // ---------------------------------------------------------------- every step is safe

  lemma FlyingAccept(flying: seq<Batch>, base: nat, next: nat, accepted: seq<Id>, b: Batch)
    requires FlyingOk(flying, base, next, accepted) && b.begin == |accepted|
    requires base == Base(flying, |accepted|)
    ensures FlyingOk(flying + [b], base, next, accepted + b.ids) && base == Base(flying + [b], b.End())
  {
    ChainedAppend(flying, base, b);
    EvictAppend(flying, base, b, next);
    assert (accepted + b.ids)[base..] == accepted[base..] + b.ids;
  }

  lemma WorkingAccept(flying: seq<Batch>, base: nat, anchor: Option<Anchor>, dumper: Option<Dumper>, b: Batch)
    requires Working(flying, base, anchor, dumper)
    ensures Working(flying + [b], base, anchor, dumper)
  {
    if dumper.Some? {
      assert (flying + [b])[..dumper.value.batches] == flying[..dumper.value.batches];
    }
  }

  lemma DumpedAccept(dumped: seq<seq<Id>>, next: nat, accepted: seq<Id>, ids: seq<Id>)
    requires DumpedOk(dumped, next, accepted)
    ensures DumpedOk(dumped, next, accepted + ids)
  {
    assert (accepted + ids)[..next] == accepted[..next];
  }

  lemma AcceptIsSafe(s: System, b: Batch, o: Options)
    requires Consistent(s, o)
    ensures Consistent(Step(s, Accept(b), o), o)
  {
    hide FilesOk, DumpedOk, FlyingOk, Working, Base;
    if !s.finished && b.begin == s.nextIndex {
      var base := Base(s.flying, s.nextIndex);
      FlyingAccept(s.flying, base, NextIndex(s.anchor), s.accepted, b);
      DumpedAccept(s.dumped, NextIndex(s.anchor), s.accepted, b.ids);
      if Working(s.flying, base, s.anchor, s.dumper) {
        WorkingAccept(s.flying, base, s.anchor, s.dumper, b);
      }
    }
  }

  lemma FlyingEvict(flying: seq<Batch>, base: nat, next: nat, accepted: seq<Id>)
    requires FlyingOk(flying, base, next, accepted)
    ensures var left := Evict(flying, next).value;
            FlyingOk(left, next, next, accepted) && Base(left, |accepted|) == next
  {
    EvictSplits(flying, base, next);
    var left := Evict(flying, next).value;
    EvictAtEdge(left, next, 0);
    assert left[..0] == [];
    assert Ids(left) == accepted[next..];
    if left == [] {
      assert |accepted[next..]| == 0;
    }
  }

  lemma EvictIsSafe(s: System, then': Stage, o: Options)
    requires Consistent(s, o)
    requires (s.stage.SyncEvict? && then' == SyncReset) || (s.stage.Evicting? && then' == Resetting)
    ensures Consistent(EvictFlying(s, then'), o)
  {
    FlyingEvict(s.flying, Base(s.flying, s.nextIndex), NextIndex(s.anchor), s.accepted);
    assert Evict(s.flying, NextIndex(s.anchor)).Some?;
    hide FilesOk, DumpedOk, FlyingOk, Working, Base, Evict;
  }

  /** Writing the next flying batch. */
  lemma WorkingDump(flying: seq<Batch>, base: nat, anchor: Option<Anchor>, dumper: Option<Dumper>)
    requires Working(flying, base, anchor, dumper) && Chained(flying, base)
    requires (if dumper.None? then 0 else dumper.value.batches) < |flying|
    ensures var d := if dumper.Some? then dumper.value
                     else Dumper(NextProcess(anchor), NextIndex(anchor), NextIndex(anchor) - 1, 0, []);
            && d.batches < |flying| && d.Dump(flying[d.batches]).Some?
            && Working(flying, base, anchor, d.Dump(flying[d.batches]))
  {
    ChainedAt(flying, base, if dumper.None? then 0 else dumper.value.batches);
    assert flying[..0] == [];
  }

  lemma DumpIsSafe(s: System, o: Options)
    requires Consistent(s, o) && s.stage.Looping?
    ensures Consistent(DumpOne(s), o)
  {
    var base := Base(s.flying, s.nextIndex);
    assert Chained(s.flying, base);
    hide FilesOk, DumpedOk, FlyingOk, Working, Base, Chained, Dumper.Dump;
    if (if s.dumper.None? then 0 else s.dumper.value.batches) < |s.flying| {
      WorkingDump(s.flying, base, s.anchor, s.dumper);
    }
  }

  /** A dumper at work has something to close. */
  lemma WorkingFinish(flying: seq<Batch>, base: nat, anchor: Option<Anchor>, d: Dumper)
    requires Working(flying, base, anchor, Some(d)) && Chained(flying, base) && d.batches > 0
    ensures d.written != [] && d.Finish().Some? && d.end >= 0
    ensures d.process == NextProcess(anchor) && d.start == NextIndex(anchor) && d.end == d.start + |d.written| - 1
    ensures d.batches <= |flying| && d.written == Ids(flying[..d.batches]) <= Ids(flying) && base == NextIndex(anchor)
  {
    IdsPrefix(flying, d.batches);
  }

  /** ... unless an empty batch has kept it from writing. */
  lemma NothingWritten(flying: seq<Batch>, base: nat, anchor: Option<Anchor>, d: Dumper)
    requires Working(flying, base, anchor, Some(d)) && d.batches == 0
    ensures d.Finish().None? && EmptyHead(flying)
  {
    assert flying[..0] == [];
  }

  lemma CloseIsSafe(s: System, o: Options, due: bool)
    requires Consistent(s, o) && s.stage.Closing?
    ensures Consistent(Step(s, Proceed(due), o), o)
  {
    if s.dumper.value.batches > 0 {
      RenameIsSafe(s, o, due);
    } else {
      NothingWritten(s.flying, Base(s.flying, s.nextIndex), s.anchor, s.dumper.value);
      hide FilesOk, DumpedOk, FlyingOk, Working, Base;
    }
  }

  lemma RenameIsSafe(s: System, o: Options, due: bool)
    requires Consistent(s, o) && s.stage.Closing? && s.dumper.value.batches > 0
    ensures Consistent(Step(s, Proceed(due), o), o)
  {
    var d := s.dumper.value;
    assert Chained(s.flying, Base(s.flying, s.nextIndex));
    hide FilesOk, DumpedOk, FlyingOk, Working, Base, Chained;
    WorkingFinish(s.flying, Base(s.flying, s.nextIndex), s.anchor, d);
    RenameKeepsFiles(s.anchor, s.files, s.dumped, d.written);
    assert d.Finish() == Some(Anchor(d.process, d.start, d.end));
    assert Step(s, Proceed(due), o)
        == s.(files := s.files[(d.process, d.start) := d.written], stage := Anchoring(d.Finish().value));
    hide NextIndex, NextProcess, Ids, Dumper.Finish, Evict, Step;
  }

  /** The anchor moves by the batches dumped. */
  lemma FlyingAnchor(flying: seq<Batch>, base: nat, accepted: seq<Id>, dumped: seq<seq<Id>>, k: nat)
    requires FlyingOk(flying, base, base, accepted) && DumpedOk(dumped, base, accepted) && k <= |flying|
    ensures var next := base + |Ids(flying[..k])|;
            FlyingOk(flying, base, next, accepted) && DumpedOk(dumped + [Ids(flying[..k])], next, accepted)
  {
    EvictAtEdge(flying, base, k);
    IdsPrefix(flying, k);
    var w := Ids(flying[..k]);
    FlatMore(dumped, w);
    assert w == accepted[base..][..|w|];
    assert accepted[..base + |w|] == accepted[..base] + accepted[base..][..|w|];
  }

  /** What holds once the anchor has moved to the file just renamed. */
  lemma AnchorMoves(flying: seq<Batch>, base: nat, anchor: Option<Anchor>, files: Files, dumped: seq<seq<Id>>,
                    accepted: seq<Id>, d: Dumper, a: Anchor)
    requires FilesOk(anchor, files, dumped) && DumpedOk(dumped, NextIndex(anchor), accepted)
    requires FlyingOk(flying, base, NextIndex(anchor), accepted) && Working(flying, base, anchor, Some(d))
    requires Renamed(files, d, a) && d.batches > 0
    ensures UpdateAnchor(anchor, files, a).None?
    ensures FilesOk(Some(a), files, dumped + [files[(a.process, a.start)]])
    ensures DumpedOk(dumped + [files[(a.process, a.start)]], NextIndex(Some(a)), accepted)
    ensures FlyingOk(flying, base, NextIndex(Some(a)), accepted)
  {
    WorkingFinish(flying, base, anchor, d);
    hide FilesOk, DumpedOk, FlyingOk, Working, UpdateAnchor, Ids, Flat, Evict, Chained, NextProcess;
    AnchorKeepsFiles(anchor, files, dumped, a);
    FlyingAnchor(flying, base, accepted, dumped, d.batches);
    assert NextIndex(Some(a)) == base + |d.written|;
  }

  lemma AnchorIsSafe(s: System, o: Options, due: bool)
    requires Consistent(s, o) && s.stage.Anchoring?
    ensures Consistent(Step(s, Proceed(due), o), o)
  {
    hide FilesOk, DumpedOk, FlyingOk, Working, Base, UpdateAnchor, NextIndex;
    AnchorMoves(s.flying, Base(s.flying, s.nextIndex), s.anchor, s.files, s.dumped, s.accepted, s.dumper.value,
                s.stage.next);
    hide Renamed;
  }

  lemma RestartIsSafe(s: System, o: Options)
    requires Consistent(s, o)
    ensures Consistent(Step(s, Restart, o), o)
  {
    hide FilesOk;
    assert s.accepted[..NextIndex(s.anchor)][NextIndex(s.anchor)..] == [];
  }

  /** Steps that only move on. */
  lemma TurnIsSafe(s: System, a: Action, o: Options)
    requires Consistent(s, o) && !a.Accept? && !a.Restart?
    requires a.Proceed? ==> s.stage.Idle? || s.stage.SyncReset? || s.stage.Resetting?
    ensures Consistent(Step(s, a, o), o)
  {
    hide FilesOk, DumpedOk, FlyingOk, Base, BatchesDone;
  }

  /** A dumper that has written nothing is closed only because it is due. */
  lemma CheckIsSafe(s: System, due: bool, o: Options)
    requires Consistent(s, o) && s.stage.Checking?
    ensures Consistent(Step(s, Proceed(due), o), o)
  {
    hide FilesOk, DumpedOk, FlyingOk, Base;
    if s.dumper.Some? && s.dumper.value.batches == 0 {
      assert s.flying[..0] == [];
    }
  }

  lemma LoopIsSafe(s: System, due: bool, o: Options)
    requires Consistent(s, o) && s.stage.Looping?
    ensures Consistent(Step(s, Proceed(due), o), o)
  {
    DumpIsSafe(s, o);
    hide FilesOk, DumpedOk, FlyingOk, Base, Working, NeedDump, DumpOne;
  }

  lemma StepIsSafe(s: System, a: Action, o: Options)
    requires Consistent(s, o)
    ensures Consistent(Step(s, a, o), o)
  {
    hide Consistent, Step;
    match a
    case Accept(b) => AcceptIsSafe(s, b, o);
    case FinishSync => TurnIsSafe(s, a, o);
    case BeginRound => TurnIsSafe(s, a, o);
    case Abort(leftover) => TurnIsSafe(s, a, o);
    case Restart => RestartIsSafe(s, o);
    case Proceed(due) =>
      match s.stage
      case Idle => TurnIsSafe(s, a, o);
      case SyncReset => TurnIsSafe(s, a, o);
      case Checking => CheckIsSafe(s, due, o);
      case Resetting => TurnIsSafe(s, a, o);
      case SyncEvict => ProceedEvict(s, due, o);
      case Evicting => ProceedEvict(s, due, o);
      case Closing => CloseIsSafe(s, o, due);
      case Anchoring(_) => AnchorIsSafe(s, o, due);
      case Looping => LoopIsSafe(s, due, o);
  }

  lemma ProceedEvict(s: System, due: bool, o: Options)
    requires Consistent(s, o) && (s.stage.SyncEvict? || s.stage.Evicting?)
    ensures Consistent(Step(s, Proceed(due), o), o)
  {
    EvictIsSafe(s, if s.stage.SyncEvict? then SyncReset else Resetting, o);
    hide Consistent, EvictFlying;
  }

  // ---------------------------------------------------------------- main results

  /** Over every run, with empty batches, with rounds aborted at any point, and with restarts at any time. */
  lemma EveryRunIsConsistent(actions: seq<Action>, o: Options)
    ensures Consistent(After(actions, o), o)
  {
    StaysConsistent(Start(), actions, o);
  }

  lemma {:induction false} StaysConsistent(s: System, actions: seq<Action>, o: Options)
    requires Consistent(s, o)
    ensures Consistent(RunFrom(s, actions, o), o)
  {
    if actions != [] {
      StaysConsistent(s, actions[..|actions| - 1], o);
      StepIsSafe(RunFrom(s, actions[..|actions| - 1], o), actions[|actions| - 1], o);
    }
  }

  /** The anchored files and the flying batches not yet dumped are exactly the accepted ids, no gap and no overlap. */
  lemma FilesAndFlyingAreAccepted(actions: seq<Action>, o: Options)
    ensures var s := After(actions, o);
            && s.nextIndex == |s.accepted|
            && Evict(s.flying, NextIndex(s.anchor)).Some?
            && Flat(s.dumped) + Ids(Evict(s.flying, NextIndex(s.anchor)).value) == s.accepted
  {
    EveryRunIsConsistent(actions, o);
    var s := After(actions, o);
    hide After, FilesOk, StageOk;
    AcceptedSplits(s, o);
  }

  lemma AcceptedSplits(s: System, o: Options)
    requires Consistent(s, o)
    ensures s.nextIndex == |s.accepted| && Evict(s.flying, NextIndex(s.anchor)).Some?
    ensures Flat(s.dumped) + Ids(Evict(s.flying, NextIndex(s.anchor)).value) == s.accepted
  {
    var base, next := Base(s.flying, s.nextIndex), NextIndex(s.anchor);
    EvictSplits(s.flying, base, next);
    assert FlyingOk(s.flying, base, next, s.accepted) && DumpedOk(s.dumped, next, s.accepted);
    hide FilesOk, StageOk, NextIndex, Base, Evict, Chained, Ids, EmptyHead, Flat;
    SplitAt(s.accepted, base, next);
  }

  lemma SplitAt(ids: seq<Id>, base: nat, next: nat)
    requires base <= next <= |ids|
    ensures ids[..next] + ids[base..][next - base..] == ids
  {
  }

  ghost predicate HasFile(files: Files, process: nat) {
    exists k :: k in files && k.0 == process
  }

  lemma FilesAreInOrder(anchor: Option<Anchor>, files: Files, dumped: seq<seq<Id>>)
    requires FilesOk(anchor, files, dumped)
    ensures forall k, l :: k in files && l in files ==> (k.0 < l.0 <==> k.1 < l.1)
    ensures forall i :: 0 <= i < NextProcess(anchor) ==> HasFile(files, i)
    ensures forall k :: k in files ==> k.0 <= NextProcess(anchor)
  {
    hide Flat;
    forall k, l | k in files && l in files ensures k.0 < l.0 <==> k.1 < l.1 {
      assert Named(dumped, k) && Named(dumped, l);
      forall i | 0 <= i < |dumped| ensures dumped[i] != [] {
        assert FileAt(files, dumped, i);
      }
      if k.0 < l.0 {
        StartOfIncreases(dumped, k.0, l.0);
      } else if l.0 < k.0 {
        StartOfIncreases(dumped, l.0, k.0);
      }
    }
    forall i | 0 <= i < NextProcess(anchor) ensures HasFile(files, i) {
      assert FileAt(files, dumped, i);
    }
    forall k | k in files ensures k.0 <= NextProcess(anchor) {
      assert Named(dumped, k);
    }
  }

  /** A visitor that lists the directory at any moment finds files numbered 0, 1, ... in the order of their start
      indices, at most one of them beyond the anchor; those up to the anchor hold the accepted ids in order. */
  lemma ListingIsInOrder(actions: seq<Action>, o: Options)
    ensures var s := After(actions, o);
            && (forall k, l :: k in s.files && l in s.files ==> (k.0 < l.0 <==> k.1 < l.1))
            && (forall i :: 0 <= i < NextProcess(s.anchor) ==> HasFile(s.files, i))
            && (forall k :: k in s.files ==> k.0 <= NextProcess(s.anchor))
            && Flat(s.dumped) <= s.accepted
  {
    EveryRunIsConsistent(actions, o);
    hide FilesOk, FlyingOk, StageOk, After, Flat;
    var s := After(actions, o);
    FilesAreInOrder(s.anchor, s.files, s.dumped);
  }

  // ---------------------------------------------------------------- when a check fails

  lemma CloseBreaks(s: System, due: bool, o: Options)
    requires Consistent(s, o) && s.stage.Closing?
    ensures Step(s, Proceed(due), o).broken <==> s.broken || EmptyHead(s.flying)
    ensures EmptyHead(s.flying) ==> o.interval > 0
  {
    var base, d := Base(s.flying, s.nextIndex), s.dumper.value;
    hide FilesOk, DumpedOk, Base;
    if d.batches > 0 {
      WorkingFinish(s.flying, base, s.anchor, d);
    } else {
      NothingWritten(s.flying, base, s.anchor, d);
    }
  }

  lemma LoopHolds(s: System, due: bool, o: Options)
    requires Consistent(s, o) && s.stage.Looping?
    ensures Step(s, Proceed(due), o).broken == s.broken && Step(s, Proceed(due), o).flying == s.flying
    ensures Step(s, Proceed(due), o).stage.Checking? || Step(s, Proceed(due), o).stage.Idle?
  {
    hide FilesOk, DumpedOk;
    if (if s.dumper.None? then 0 else s.dumper.value.batches) < |s.flying| {
      WorkingDump(s.flying, Base(s.flying, s.nextIndex), s.anchor, s.dumper);
    }
  }

  lemma AnchorHolds(s: System, due: bool, o: Options)
    requires Consistent(s, o) && s.stage.Anchoring?
    ensures Step(s, Proceed(due), o).broken == s.broken && Step(s, Proceed(due), o).stage.Evicting?
  {
    hide FilesOk, DumpedOk, FlyingOk, Working, Base, UpdateAnchor, NextIndex, Renamed;
    AnchorMoves(s.flying, Base(s.flying, s.nextIndex), s.anchor, s.files, s.dumped, s.accepted, s.dumper.value,
                s.stage.next);
  }

  lemma EvictHolds(s: System, due: bool, o: Options)
    requires Consistent(s, o) && (s.stage.SyncEvict? || s.stage.Evicting?)
    ensures Step(s, Proceed(due), o).broken == s.broken && !EmptyHead(Step(s, Proceed(due), o).flying)
    ensures !Step(s, Proceed(due), o).stage.Closing?
  {
    EvictClears(s, o);
    hide Consistent, EmptyHead, NextIndex, Evict, UpdateAnchor, DumpOne, NeedDump, NeedFinish;
  }

  /** An eviction succeeds and leaves no empty batch first. */
  lemma EvictClears(s: System, o: Options)
    requires Consistent(s, o)
    ensures var left := Evict(s.flying, NextIndex(s.anchor)); left.Some? && !EmptyHead(left.value)
  {
    EvictSplits(s.flying, Base(s.flying, s.nextIndex), NextIndex(s.anchor));
    hide *;
  }

  /** The only check that can fail is the one on closing a dumper, and it fails exactly when an empty first batch has
      kept the dumper from writing. */
  lemma BreaksOnEmptyHead(s: System, a: Action, o: Options)
    requires Consistent(s, o)
    ensures Step(s, a, o).broken <==> s.broken || (a.Proceed? && s.stage.Closing? && EmptyHead(s.flying))
    ensures s.stage.Closing? && EmptyHead(s.flying) ==> o.interval > 0
  {
    hide Consistent, EmptyHead, EvictFlying, DumpOne, UpdateAnchor, NeedDump, NeedFinish;
    if s.stage.Closing? {
      CloseBreaks(s, true, o);
    }
    if a.Proceed? {
      match s.stage
      case Closing => CloseBreaks(s, a.due, o);
      case Looping => LoopHolds(s, a.due, o);
      case Anchoring(_) => AnchorHolds(s, a.due, o);
      case SyncEvict => EvictHolds(s, a.due, o);
      case Evicting => EvictHolds(s, a.due, o);
      case _ =>
    }
  }

  /** Without a dump interval no check ever fails, whatever batches are accepted. */
  lemma {:induction false} NoIntervalNoFailure(actions: seq<Action>, o: Options)
    requires o.interval <= 0
    ensures !After(actions, o).broken
  {
    if actions != [] {
      NoIntervalNoFailure(actions[..|actions| - 1], o);
      EveryRunIsConsistent(actions[..|actions| - 1], o);
      BreaksOnEmptyHead(After(actions[..|actions| - 1], o), actions[|actions| - 1], o);
    }
  }

  /** An eviction comes before the next dump. */
  predicate EvictsFirst(s: System) {
    s.stage.SyncEvict? || s.stage.Evicting? || (s.stage.Idle? && s.stale)
  }

  /** What is going to be dumped next is not an empty batch. */
  predicate Clear(s: System) {
    EvictsFirst(s) || !EmptyHead(s.flying)
  }

  /** The batch may be taken: it is not empty, or others fly before it, or an eviction removes it first, or it is not
      accepted at all. */
  predicate MayTake(s: System, b: Batch) {
    b.ids != [] || s.flying != [] || EvictsFirst(s) || s.finished || b.begin != s.nextIndex
  }

  /** Exactly the batches that may be taken keep the way clear. */
  lemma TakingKeepsClear(s: System, b: Batch, o: Options)
    requires Clear(s)
    ensures Clear(Step(s, Accept(b), o)) <==> MayTake(s, b)
  {
  }

  /** Every batch offered may be taken. */
  ghost predicate Careful(s: System, actions: seq<Action>, o: Options) {
    forall i :: 0 <= i < |actions| && actions[i].Accept? ==> MayTake(RunFrom(s, actions[..i], o), actions[i].batch)
  }

  lemma StepKeepsClear(s: System, a: Action, o: Options)
    requires Consistent(s, o) && Clear(s) && (a.Accept? ==> MayTake(s, a.batch))
    ensures Clear(Step(s, a, o)) && Step(s, a, o).broken == s.broken
  {
    BreaksOnEmptyHead(s, a, o);
    hide EmptyHead, EvictFlying, DumpOne, UpdateAnchor, NeedDump, NeedFinish, FilesOk, DumpedOk, FlyingOk;
    if a.Accept? {
      hide Step, Consistent;
      TakingKeepsClear(s, a.batch, o);
    } else if a.Proceed? {
      ProceedKeepsClear(s, a.due, o);
    } else if a.Restart? {
      NothingFlies([]);
    }
  }

  lemma NothingFlies(flying: seq<Batch>)
    requires flying == []
    ensures !EmptyHead(flying)
  {
  }

  lemma ProceedKeepsClear(s: System, due: bool, o: Options)
    requires Consistent(s, o) && Clear(s)
    ensures Clear(Step(s, Proceed(due), o))
  {
    hide EmptyHead, EvictFlying, DumpOne, UpdateAnchor, NeedDump, NeedFinish, FilesOk, DumpedOk, FlyingOk, Working;
    match s.stage
    case Looping => LoopHolds(s, due, o);
    case Anchoring(_) => AnchorHolds(s, due, o);
    case SyncEvict => EvictHolds(s, due, o);
    case Evicting => EvictHolds(s, due, o);
    case _ =>
  }

  lemma {:induction false} CarefulRunsHold(s: System, actions: seq<Action>, o: Options)
    requires Consistent(s, o) && Clear(s) && Careful(s, actions, o)
    ensures Consistent(RunFrom(s, actions, o), o) && Clear(RunFrom(s, actions, o))
    ensures RunFrom(s, actions, o).broken == s.broken
  {
    if actions != [] {
      var front, a := actions[..|actions| - 1], actions[|actions| - 1];
      forall i | 0 <= i < |front| && front[i].Accept? ensures MayTake(RunFrom(s, front[..i], o), front[i].batch) {
        assert front[..i] == actions[..i];
      }
      CarefulRunsHold(s, front, o);
      StepIsSafe(RunFrom(s, front, o), a, o);
      StepKeepsClear(RunFrom(s, front, o), a, o);
    }
  }

  /** Steps until the round tries to close its dumper. */
  function ToClosing(s: System): nat {
    match s.stage
    case Idle => 5
    case SyncReset => 5
    case Resetting => 5
    case Checking => if s.dumper.None? then 4 else 2
    case Looping => 3
    case _ => 0
  }

  /** One step further, an empty first batch is still first. */
  lemma StillUnclear(s: System, a: Action, o: Options)
    requires Consistent(s, o) && !Clear(s) && o.interval > 0 && !s.stage.Closing?
    requires a == if s.stage.Idle? then BeginRound else Proceed(true)
    ensures !Clear(Step(s, a, o)) && ToClosing(Step(s, a, o)) < ToClosing(s)
  {
    hide FilesOk, DumpedOk, FlyingOk, Base, Evict, UpdateAnchor, Dumper.Full, Ids;
  }

  lemma {:induction false} RunPrepend(s: System, a: Action, rest: seq<Action>, o: Options)
    ensures RunFrom(s, [a] + rest, o) == RunFrom(Step(s, a, o), rest, o)
  {
    hide Step;
    var all := [a] + rest;
    if rest == [] {
      assert all[..0] == [];
    } else {
      assert all[..|all| - 1] == [a] + rest[..|rest| - 1];
      RunPrepend(s, a, rest[..|rest| - 1], o);
    }
  }

  /** From a state that is not clear, the round under way (or the next one) fails once it is due. */
  lemma UnclearBreaks(s: System, o: Options) returns (actions: seq<Action>)
    requires Consistent(s, o) && !Clear(s) && o.interval > 0
    ensures RunFrom(s, actions, o).broken && forall a :: a in actions ==> !a.Accept?
    decreases ToClosing(s)
  {
    hide Consistent, Clear, Step;
    if s.stage.Closing? {
      actions := [Proceed(true)];
      assert EmptyHead(s.flying) by {
        ClearMeans(s);
      }
      BreaksOnEmptyHead(s, Proceed(true), o);
      assert actions[..0] == [];
    } else {
      var a := if s.stage.Idle? then BeginRound else Proceed(true);
      StepIsSafe(s, a, o);
      StillUnclear(s, a, o);
      var rest := UnclearBreaks(Step(s, a, o), o);
      actions := [a] + rest;
      RunPrepend(s, a, rest, o);
    }
  }

  lemma ClearMeans(s: System)
    ensures !Clear(s) ==> EmptyHead(s.flying)
  {
  }

  /** Empty batches matter exactly there: for every run so far, the state is clear if and only if no continuation that
      takes only what may be taken fails a check. */
  lemma ClearIsExact(before: seq<Action>, o: Options)
    requires o.interval > 0 && !After(before, o).broken
    ensures var s := After(before, o);
            Clear(s) <==> forall more :: Careful(s, more, o) ==> !RunFrom(s, more, o).broken
  {
    var s := After(before, o);
    EveryRunIsConsistent(before, o);
    if Clear(s) {
      forall more | Careful(s, more, o) ensures !RunFrom(s, more, o).broken {
        CarefulRunsHold(s, more, o);
      }
    } else {
      var more := UnclearBreaks(s, o);
      assert Careful(s, more, o);
    }
  }

  /** So a batch may be taken in exactly the states named by `MayTake`: a non-empty batch always, an empty one if others
      fly before it or an eviction comes first. */
  lemma TakingIsExact(before: seq<Action>, b: Batch, o: Options)
    requires o.interval > 0 && !After(before, o).broken && Clear(After(before, o))
    ensures var s := Step(After(before, o), Accept(b), o);
            MayTake(After(before, o), b) <==> forall more :: Careful(s, more, o) ==> !RunFrom(s, more, o).broken
  {
    var all := before + [Accept(b)];
    assert all[..|before|] == before;
    TakingKeepsClear(After(before, o), b, o);
    hide Clear, MayTake, Careful;
    ClearIsExact(all, o);
  }

  /** What an empty batch behind others does instead: until the dump is due or the file is full, the round goes round
      without getting past it. */
  lemma EmptyBatchStalls(s: System, o: Options)
    requires Consistent(s, o) && s.stage.Looping? && s.dumper.Some?
    requires var d := s.dumper.value; d.batches < |s.flying| && s.flying[d.batches].ids == [] && !d.Full(o.threshold)
    ensures Step(Step(s, Proceed(false), o), Proceed(false), o) == s
  {
    hide Consistent;
  }
}
