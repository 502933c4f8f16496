/** Publishing raw data files into a numbered log by compare-and-set, and subscribing to it. */
module PublishLog {
  import opened Wrappers

  /** Files are opaque here. */
  type Path = int

  datatype Record = File(path: Path) | Finish

  /** A record with the thread that wrote it; the store itself does not keep the writer. */
  datatype Entry = Entry(record: Record, writer: nat)

  // ---------------------------------------------------------------- threads

  /** Where a publisher or finisher stands: looking for the end of the log by halving or one by one, about to check
      the record before a candidate, about to write, or done. */
  datatype Stage =
    | Halving(left: nat, right: Bound)
    | Scanning(next: nat)
    | Checking(next: nat)
    | Writing(next: nat)
    | Done

  /** A publisher of `files`, of which `item` are published; a finisher publishes the finish tag. */
  datatype Thread = Thread(files: seq<Path>, isFinisher: bool, item: nat, stage: Stage)

  type Bound = r: int | -1 <= r witness -1

  const LAST: nat := 0x8000_0000_0000_0000

  function NewPublisher(files: seq<Path>): Thread {
    Thread(files, false, 0, if files == [] then Done else Halving(0, LAST))
  }

  function NewFinisher(): Thread {
    Thread([], true, 0, Halving(0, LAST))
  }

  /** The store, and the entries in the order they were written. */
  datatype System = System(store: map<nat, Entry>, threads: seq<Thread>, log: seq<Entry>)

  function Start(threads: seq<Thread>): System {
    System(map[], threads, [])
  }

  /** What the thread writes next. */
  function Data(t: Thread): Record {
    if t.isFinisher || t.item >= |t.files| then Finish else File(t.files[t.item])
  }

  /** After a successful write. */
  function Written(t: Thread): Thread
    requires t.stage.Writing?
  {
    if t.isFinisher then t.(stage := Done)
    else t.(item := t.item + 1, stage := if t.item + 1 < |t.files| then Scanning(t.stage.next + 1) else Done)
  }

  /** One operation of thread `i` on the store. */
  function Step(s: System, i: nat): System {
    if i >= |s.threads| then s
    else
      var t := s.threads[i];
      match t.stage
      case Halving(left, right) =>
        if left > right then s.(threads := s.threads[i := t.(stage := Checking(right + 1))])
        else
          var index := (left + right) / 2;
          s.(threads := s.threads[i := t.(stage := if index in s.store then Halving(index + 1, right)
                                                  else Halving(left, index - 1))])
      case Scanning(next) =>
        s.(threads := s.threads[i := t.(stage := if next in s.store then Scanning(next + 1) else Checking(next))])
      case Checking(next) =>
        var last := next > 0 && (next - 1) in s.store && s.store[next - 1].record.Finish?;
        s.(threads := s.threads[i := t.(stage := if last then Done else Writing(next))])
      case Writing(next) =>
        if next in s.store then s.(threads := s.threads[i := t.(stage := Scanning(next))])
        else
          var e := Entry(Data(t), i);
          System(s.store[next := e], s.threads[i := Written(t)], s.log + [e])
      case Done => s
  }

  function After(threads: seq<Thread>, turns: seq<nat>): System {
    if turns == [] then Start(threads) else Step(After(threads, turns[..|turns| - 1]), turns[|turns| - 1])
  }

  // ---------------------------------------------------------------- what every run keeps

  /** The keys of the store are 0, 1, ... without a gap, in the order of writing. */
  ghost predicate GapFree(store: map<nat, Entry>, log: seq<Entry>) {
    && (forall k: nat :: k in store <==> k < |log|)
    && (forall k: nat :: k < |log| ==> store[k] == log[k])
  }

  ghost predicate NothingAfterFinish(log: seq<Entry>) {
    forall k :: 0 <= k < |log| - 1 ==> !log[k].record.Finish?
  }

  ghost predicate Finished(log: seq<Entry>) {
    log != [] && log[|log| - 1].record.Finish?
  }

  /** A candidate is at most the end of the log; one that was checked does not follow a finish tag. */
  ghost predicate StageOk(stage: Stage, log: seq<Entry>) {
    match stage
    case Halving(left, right) => left <= |log| && left <= right + 1
    case Scanning(next) => next <= |log|
    case Checking(next) => next <= |log|
    case Writing(next) => next <= |log| && (next > 0 ==> !log[next - 1].record.Finish?)
    case Done => true
  }

  /** The records a thread has written, in the order of the log. */
  function WrittenBy(log: seq<Entry>, i: nat): seq<Record> {
    if log == [] then []
    else WrittenBy(log[..|log| - 1], i) + if log[|log| - 1].writer == i then [log[|log| - 1].record] else []
  }

  function Files(paths: seq<Path>): seq<Record> {
    seq(|paths|, k requires 0 <= k < |paths| => File(paths[k]))
  }

  /** A publisher has written its first files, each once and in order, and stops only at the end or at a finish tag;
      a finisher writes one finish tag or finds one. */
  ghost predicate ThreadOk(t: Thread, log: seq<Entry>, i: nat) {
    && StageOk(t.stage, log) && t.item <= |t.files|
    && (t.isFinisher ==> (t.stage.Done? ==> Finished(log)) && (!t.stage.Done? ==> WrittenBy(log, i) == []))
    && (!t.isFinisher ==>
          && WrittenBy(log, i) == Files(t.files[..t.item])
          && (t.stage.Done? ==> t.item == |t.files| || Finished(log))
          && (!t.stage.Done? ==> t.item < |t.files|))
  }

  ghost predicate Safe(s: System) {
    && GapFree(s.store, s.log) && NothingAfterFinish(s.log)
    && (forall e :: e in s.log ==> e.writer < |s.threads|)
    && ThreadsOk(s.threads, s.log)
  }

  ghost predicate ThreadsOk(threads: seq<Thread>, log: seq<Entry>) {
    forall i :: 0 <= i < |threads| ==> ThreadOk(threads[i], log, i)
  }

  ghost predicate Fresh(threads: seq<Thread>) {
    forall i :: 0 <= i < |threads| ==> threads[i] == NewFinisher() || threads[i] == NewPublisher(threads[i].files)
  }

  lemma WrittenByAppend(log: seq<Entry>, e: Entry, i: nat)
    ensures WrittenBy(log + [e], i) == WrittenBy(log, i) + if e.writer == i then [e.record] else []
  {
    assert (log + [e])[..|log|] == log;
  }

  /** Growing the log keeps what the other threads know. */
  lemma OthersKeep(t: Thread, log: seq<Entry>, e: Entry, i: nat)
    requires ThreadOk(t, log, i) && e.writer != i && !Finished(log)
    ensures ThreadOk(t, log + [e], i)
  {
    WrittenByAppend(log, e, i);
    var more := log + [e];
    assert StageOk(t.stage, more) by {
      if t.stage.Writing? && t.stage.next > 0 {
        assert more[t.stage.next - 1] == log[t.stage.next - 1];
      }
    }
  }

  lemma WriterKeeps(t: Thread, log: seq<Entry>, i: nat)
    requires ThreadOk(t, log, i) && t.stage == Writing(|log|)
    ensures ThreadOk(Written(t), log + [Entry(Data(t), i)], i)
  {
    WrittenByAppend(log, Entry(Data(t), i), i);
    if !t.isFinisher {
      FilesOneMore(t.files, t.item);
    }
  }

  lemma ThreadsKeep(threads: seq<Thread>, log: seq<Entry>, i: nat)
    requires ThreadsOk(threads, log) && i < |threads| && threads[i].stage == Writing(|log|) && !Finished(log)
    ensures ThreadsOk(threads[i := Written(threads[i])], log + [Entry(Data(threads[i]), i)])
  {
    var e := Entry(Data(threads[i]), i);
    WriterKeeps(threads[i], log, i);
    hide ThreadOk, Data, Written, Finished;
    forall j | 0 <= j < |threads| && j != i ensures ThreadOk(threads[j], log + [e], j) {
      OthersKeep(threads[j], log, e, j);
    }
  }

  lemma WriteIsSafe(s: System, i: nat)
    requires Safe(s) && i < |s.threads| && s.threads[i].stage.Writing? && s.threads[i].stage.next !in s.store
    ensures Safe(Step(s, i))
  {
    var t := s.threads[i];
    assert ThreadOk(t, s.log, i) && t.stage == Writing(|s.log|) && !Finished(s.log);
    var e := Entry(Data(t), i);
    assert GapFree(s.store[|s.log| := e], s.log + [e]) && NothingAfterFinish(s.log + [e]);
    hide ThreadsOk, ThreadOk, Data, Written, GapFree, NothingAfterFinish, Finished;
    ThreadsKeep(s.threads, s.log, i);
  }

  /** Steps that only read: the thread learns where the log ends. */
  lemma ReaderKeeps(s: System, i: nat)
    requires Safe(s) && i < |s.threads|
    requires !s.threads[i].stage.Writing? || s.threads[i].stage.next in s.store
    ensures Step(s, i).store == s.store && Step(s, i).log == s.log && |Step(s, i).threads| == |s.threads|
    ensures ThreadOk(Step(s, i).threads[i], s.log, i)
    ensures forall j :: 0 <= j < |s.threads| && j != i ==> Step(s, i).threads[j] == s.threads[j]
  {
    var t := s.threads[i];
    assert ThreadOk(t, s.log, i);
    hide WrittenBy, Files, ThreadsOk, Data, Written;
    if t.stage.Checking? {
      CheckerKeeps(s, i);
      hide *;
    } else {
      hide NothingAfterFinish, Finished;
    }
  }

  lemma CheckerKeeps(s: System, i: nat)
    requires Safe(s) && i < |s.threads| && s.threads[i].stage.Checking?
    ensures Step(s, i).store == s.store && Step(s, i).log == s.log && |Step(s, i).threads| == |s.threads|
    ensures ThreadOk(Step(s, i).threads[i], s.log, i)
    ensures forall j :: 0 <= j < |s.threads| && j != i ==> Step(s, i).threads[j] == s.threads[j]
  {
    var t := s.threads[i];
    assert ThreadOk(t, s.log, i);
    hide WrittenBy, Files, ThreadsOk, Data, Written;
    if t.stage.next > 0 && s.log[t.stage.next - 1].record.Finish? {
      assert t.stage.next == |s.log| && Finished(s.log);
    }
    hide NothingAfterFinish, Finished;
  }

  lemma StepIsSafe(s: System, i: nat)
    requires Safe(s)
    ensures Safe(Step(s, i))
  {
    if i < |s.threads| {
      if s.threads[i].stage.Writing? && s.threads[i].stage.next !in s.store {
        WriteIsSafe(s, i);
      } else {
        ReaderKeeps(s, i);
        hide Step, ThreadOk, GapFree;
      }
    }
  }

  lemma SameThreads(s: System, i: nat)
    ensures |Step(s, i).threads| == |s.threads|
  {
  }

  /** Under every interleaving of publishers and finishers. */
  lemma {:induction false} EveryRunIsSafe(threads: seq<Thread>, turns: seq<nat>)
    requires Fresh(threads)
    ensures Safe(After(threads, turns)) && |After(threads, turns).threads| == |threads|
  {
    if turns == [] {
      forall i | 0 <= i < |threads| ensures ThreadOk(threads[i], [], i) {
      }
    } else {
      hide Step, Safe;
      EveryRunIsSafe(threads, turns[..|turns| - 1]);
      SameThreads(After(threads, turns[..|turns| - 1]), turns[|turns| - 1]);
      StepIsSafe(After(threads, turns[..|turns| - 1]), turns[|turns| - 1]);
    }
  }

  /** The log is append-only: however the run goes on, what was written stays where it was. */
  lemma {:induction false} LogIsAppendOnly(threads: seq<Thread>, turns: seq<nat>, more: seq<nat>)
    requires Fresh(threads)
    ensures var s, s' := After(threads, turns), After(threads, turns + more);
            && s.log <= s'.log && (forall k: nat :: k in s.store ==> k in s'.store && s'.store[k] == s.store[k])
  {
    hide Step, Safe, Fresh;
    EveryRunIsSafe(threads, turns);
    EveryRunIsSafe(threads, turns + more);
    StoreIsLog(After(threads, turns));
    StoreIsLog(After(threads, turns + more));
    if more == [] {
      assert turns + more == turns;
    } else {
      LogIsAppendOnly(threads, turns, more[..|more| - 1]);
      assert (turns + more)[..|turns + more| - 1] == turns + more[..|more| - 1];
      StepAppends(After(threads, turns + more[..|more| - 1]), more[|more| - 1]);
    }
  }

  lemma StoreIsLog(s: System)
    requires Safe(s)
    ensures GapFree(s.store, s.log)
  {
  }

  lemma StepAppends(s: System, i: nat)
    ensures s.log <= Step(s, i).log
  {
  }

  /** Every round of the halving shrinks the range: it ends after at most 64 rounds. */
  lemma HalvingEnds(s: System, i: nat)
    requires i < |s.threads| && s.threads[i].stage.Halving? && s.threads[i].stage.left <= s.threads[i].stage.right
    ensures var t' := Step(s, i).threads[i];
            && t'.stage.Halving?
            && 2 * (t'.stage.right - t'.stage.left + 1) <= s.threads[i].stage.right - s.threads[i].stage.left + 1
  {
  }

  // ---------------------------------------------------------------- a thread left alone

  /** Thread `i` takes the next `n` steps. */
  function Alone(s: System, i: nat, n: nat): System
    decreases n
  {
    if n == 0 then s else Alone(Step(s, i), i, n - 1)
  }

  /** What the thread still has to write. */
  function ToWrite(t: Thread): nat {
    if t.stage.Done? then 0 else if t.isFinisher then 1 else if t.item < |t.files| then |t.files| - t.item else 0
  }

  /** How far it is from its next write. */
  function Distance(t: Thread, end: nat): nat {
    match t.stage
    case Halving(left, right) => 3 * end + 20 + if left <= right then right - left + 1 else 0
    case Scanning(next) => if next < end then 3 * (end - next) + 10 else 2
    case Checking(next) => if next < end then 3 * (end - next) + 12 else 1
    case Writing(next) => if next < end then 3 * (end - next) + 11 else 0
    case Done => 0
  }

  lemma StepGetsOn(s: System, i: nat)
    requires Safe(s) && i < |s.threads| && !s.threads[i].stage.Done?
    ensures var t, t' := s.threads[i], Step(s, i).threads[i];
            && |Step(s, i).threads| == |s.threads|
            && (ToWrite(t') < ToWrite(t)
                || (ToWrite(t') == ToWrite(t) && Distance(t', |Step(s, i).log|) < Distance(t, |s.log|)))
  {
    assert ThreadOk(s.threads[i], s.log, i);
    hide ThreadsOk, NothingAfterFinish, WrittenBy, Files, Finished;
  }

  /** A thread that is left alone comes to its end: a publisher has all its files in the log then, or the log is
      finished. */
  lemma {:induction false} AloneFinishes(s: System, i: nat) returns (n: nat)
    requires Safe(s) && i < |s.threads|
    ensures var s' := Alone(s, i, n);
            && Safe(s') && i < |s'.threads| && s'.threads[i].stage.Done?
            && (Finished(s'.log) || (!s'.threads[i].isFinisher && s'.threads[i].item == |s'.threads[i].files|))
    decreases ToWrite(s.threads[i]), Distance(s.threads[i], |s.log|)
  {
    hide *;
    if s.threads[i].stage.Done? {
      n := 0;
      DoneMeans(s, i);
    } else {
      StepIsSafe(s, i);
      StepGetsOn(s, i);
      var m := AloneFinishes(Step(s, i), i);
      n := m + 1;
      AloneFirst(s, i, m);
    }
  }

  lemma DoneMeans(s: System, i: nat)
    requires Safe(s) && i < |s.threads| && s.threads[i].stage.Done?
    ensures Alone(s, i, 0) == s
    ensures Finished(s.log) || (!s.threads[i].isFinisher && s.threads[i].item == |s.threads[i].files|)
  {
    assert ThreadOk(s.threads[i], s.log, i);
    hide WrittenBy, Files, ThreadsOk, NothingAfterFinish;
  }

  lemma AloneFirst(s: System, i: nat, m: nat)
    ensures Alone(s, i, m + 1) == Alone(Step(s, i), i, m)
  {
  }

  // ---------------------------------------------------------------- one publisher among others

  /** What the other threads manage to append: nothing once the log is finished, and nothing after a finish tag. */
  function Appended(log: seq<Entry>, more: seq<Entry>): seq<Entry>
    decreases |more|
  {
    if more == [] || (log != [] && log[|log| - 1].record.Finish?) then log else Appended(log + [more[0]], more[1..])
  }

  lemma {:induction false} AppendedGrows(log: seq<Entry>, more: seq<Entry>, me: nat)
    requires NothingAfterFinish(log) && forall e :: e in more ==> e.writer != me
    ensures log <= Appended(log, more) && NothingAfterFinish(Appended(log, more))
    ensures WrittenBy(Appended(log, more), me) == WrittenBy(log, me)
    decreases |more|
  {
    if more != [] && !Finished(log) {
      WrittenByAppend(log, more[0], me);
      AppendedGrows(log + [more[0]], more[1..], me);
    }
  }

  lemma FilesOneMore(files: seq<Path>, n: nat)
    requires n < |files|
    ensures Files(files[..n + 1]) == Files(files[..n]) + [File(files[n])]
  {
  }

  /** The log as thread `me` sees it: before each of its operations the others may append. */
  class SharedLog {
    const me: nat
    var log: seq<Entry>
    var arrivals: seq<seq<Entry>>

    ghost predicate Valid()
      reads this
    {
      NothingAfterFinish(log) && forall a, e :: a in arrivals && e in a ==> e.writer != me
    }

    /** An upper bound on what the others still append. */
    ghost function Ahead(a: seq<seq<Entry>>): nat {
      if a == [] then 0 else |a[0]| + Ahead(a[1..])
    }

    constructor (me: nat, arrivals: seq<seq<Entry>>)
      requires forall a, e :: a in arrivals && e in a ==> e.writer != me
      ensures Valid() && log == [] && this.me == me && this.arrivals == arrivals
    {
      this.me, this.arrivals := me, arrivals;
      log := [];
    }

    method Interfere()
      requires Valid()
      modifies this
      ensures Valid() && old(log) <= log && WrittenBy(log, me) == WrittenBy(old(log), me)
      ensures |log| + Ahead(arrivals) <= |old(log)| + Ahead(old(arrivals))
    {
      if arrivals != [] {
        AppendedGrows(log, arrivals[0], me);
        AppendedLength(log, arrivals[0]);
        log := Appended(log, arrivals[0]);
        arrivals := arrivals[1..];
      }
    }

    lemma {:induction false} AppendedLength(log: seq<Entry>, more: seq<Entry>)
      ensures |Appended(log, more)| <= |log| + |more|
      decreases |more|
    {
      if more != [] && !(log != [] && log[|log| - 1].record.Finish?) {
        AppendedLength(log + [more[0]], more[1..]);
      }
    }

    method Get(index: int) returns (r: Option<Record>)
      requires Valid()
      modifies this
      ensures Valid() && old(log) <= log && WrittenBy(log, me) == WrittenBy(old(log), me)
      ensures |log| + Ahead(arrivals) <= |old(log)| + Ahead(old(arrivals))
      ensures r == if 0 <= index < |log| then Some(log[index].record) else None
    {
      Interfere();
      r := if 0 <= index < |log| then Some(log[index].record) else None;
    }

    /** `cas(key, None, data)`: writes only where nothing is. */
    method CasAbsent(index: nat, data: Record) returns (ok: bool)
      requires Valid() && index <= |log| && (index > 0 ==> !log[index - 1].record.Finish?)
      modifies this
      ensures Valid() && old(log) <= log
      ensures |log| + Ahead(arrivals) <= |old(log)| + Ahead(old(arrivals)) + if ok then 1 else 0
      ensures if ok then index == |log| - 1 && log[index] == Entry(data, me)
                         && WrittenBy(log, me) == WrittenBy(old(log), me) + [data]
              else index < |log| && WrittenBy(log, me) == WrittenBy(old(log), me)
    {
      Interfere();
      ok := index == |log|;
      if ok {
        WrittenByAppend(log, Entry(data, me), me);
        log := log + [Entry(data, me)];
      }
    }

    /** `_forward_pub_index` without a previous index: halving on a log that grows meanwhile. */
    method FindEnd() returns (next: nat)
      requires Valid()
      modifies this
      ensures Valid() && old(log) <= log && WrittenBy(log, me) == WrittenBy(old(log), me)
      ensures next <= |log| && |log| + Ahead(arrivals) <= |old(log)| + Ahead(old(arrivals))
      ensures |old(log)| <= next || next == LAST + 1
    {
      var left, right: int := 0, LAST;
      while left <= right
        invariant Valid() && old(log) <= log && WrittenBy(log, me) == WrittenBy(old(log), me)
        invariant |log| + Ahead(arrivals) <= |old(log)| + Ahead(old(arrivals))
        invariant 0 <= left <= |log| && left <= right + 1
        invariant right == LAST || |old(log)| <= right + 1
        decreases right - left + 1
      {
        var index := (left + right) / 2;
        var r := Get(index);
        if r.Some? {
          left := index + 1;
        } else {
          right := index - 1;
        }
      }
      next := right + 1;
    }

    /** `_forward_pub_index` from a previous index. */
    method ScanForward(from: nat) returns (next: nat)
      requires Valid() && from <= |log|
      modifies this
      ensures Valid() && old(log) <= log && WrittenBy(log, me) == WrittenBy(old(log), me)
      ensures from < |old(log)| ==> from < next
      ensures from <= next == |log| && |log| + Ahead(arrivals) <= |old(log)| + Ahead(old(arrivals))
    {
      next := from;
      var r := Get(next);
      while r.Some?
        invariant Valid() && old(log) <= log && WrittenBy(log, me) == WrittenBy(old(log), me)
        invariant |log| + Ahead(arrivals) <= |old(log)| + Ahead(old(arrivals))
        invariant from <= next <= |log| && (r.Some? <==> next < |log|) && (next == from < |old(log)| ==> r.Some?)
        decreases |old(log)| + Ahead(old(arrivals)) - next, r.Some?
      {
        next := next + 1;
        r := Get(next);
      }
    }

    /** `_forward_pub_index`: halving the first time, one by one afterwards. */
    method ForwardIndex(previous: Option<nat>) returns (next: nat)
      requires Valid() && (previous.Some? ==> previous.value <= |log|)
      modifies this
      ensures Valid() && old(log) <= log && WrittenBy(log, me) == WrittenBy(old(log), me)
      ensures next <= |log| && |log| + Ahead(arrivals) <= |old(log)| + Ahead(old(arrivals))
      ensures previous.None? ==> |old(log)| <= next || next == LAST + 1
      ensures previous.Some? ==> previous.value <= next == |log|
      ensures previous.Some? && previous.value < |old(log)| ==> previous.value < next
    {
      if previous.None? {
        next := FindEnd();
      } else {
        next := ScanForward(previous.value);
      }
    }

    method CheckFinishTag(last: int) returns (finished: bool)
      requires Valid() && last < |log|
      modifies this
      ensures Valid() && old(log) <= log && WrittenBy(log, me) == WrittenBy(old(log), me)
      ensures |log| + Ahead(arrivals) <= |old(log)| + Ahead(old(arrivals))
      ensures finished == (last >= 0 && log[last].record.Finish?)
      ensures finished ==> Finished(log)
    {
      finished := false;
      if last >= 0 {
        var r := Get(last);
        finished := r == Some(Finish);
      }
    }

    /** `publish_raw_data`: appends its files in order, each once, until all are in or it meets a finish tag. */
    method PublishRawData(files: seq<Path>) returns (published: nat)
      requires Valid()
      modifies this
      ensures Valid() && old(log) <= log && published <= |files|
      ensures WrittenBy(log, me) == WrittenBy(old(log), me) + Files(files[..published])
      ensures published == |files| || Finished(log)
    {
      published := 0;
      assert Files(files[..0]) == [];
      if |files| == 0 {
        return;
      }
      hide WrittenBy, Files, NothingAfterFinish, Valid, Ahead;
      var previous: Option<nat> := None;
      ghost var w := WrittenBy(log, me);
      while published < |files|
        invariant Valid() && old(log) <= log && published <= |files| && (previous.Some? ==> previous.value <= |log|)
        invariant WrittenBy(log, me) == w + Files(files[..published])
        decreases |files| - published, previous.None?,
                  if previous.Some? then |log| + Ahead(arrivals) - previous.value else 0,
                  previous.Some? && previous.value == |log|
      {
        var next: nat := ForwardIndex(previous);
        var finished := CheckFinishTag(next - 1);
        if finished {
          break;
        }
        var ok := CasAbsent(next, File(files[published]));
        if ok {
          FilesOneMore(files, published);
          assert WrittenBy(log, me) == w + Files(files[..published + 1]);
          next := next + 1;
          published := published + 1;
        }
        previous := Some(next);
      }
    }
  }

  // ---------------------------------------------------------------- subscribing

  function Records(log: seq<Entry>): seq<Record> {
    seq(|log|, k requires 0 <= k < |log| => log[k].record)
  }

  /** The manifest of one partition: the next log index, whether the finish tag was seen, and the files stored. */
  class Subscription {
    var next: nat
    var finished: bool
    var stored: seq<Path>

    /** What is stored is exactly what the log says before `next`. */
    ghost predicate InStep(log: seq<Entry>)
      reads this
    {
      Recorded(stored, log, next) && (finished ==> next < |log| && log[next].record.Finish?)
    }

    constructor ()
      ensures next == 0 && !finished && stored == []
    {
      next, finished, stored := 0, false, [];
    }

    /** `_try_to_sub_raw_data`, running to its end, while publishers go on. */
    method TryToSubscribe(l: SharedLog) returns (count: nat)
      requires l.Valid() && InStep(l.log)
      modifies this, l
      ensures l.Valid() && old(l.log) <= l.log && InStep(l.log)
      ensures old(stored) <= stored && next == old(next) + count
      ensures finished || |old(l.log)| <= next
    {
      if finished {
        RecordedGrows(stored, old(l.log), l.log, next);
        return 0;
      }
      var candidates: seq<Path> := [];
      var nextIndex := next;
      var done := false;
      assert stored + candidates == stored;
      var r := l.Get(nextIndex);
      RecordedGrows(stored, old(l.log), l.log, next);
      hide Recorded;
      while r.Some? && !done
        invariant l.Valid() && old(l.log) <= l.log && unchanged(this)
        invariant nextIndex == next + |candidates| <= |l.log|
        invariant r == (if nextIndex < |l.log| then Some(l.log[nextIndex].record) else None)
        invariant done ==> r == Some(Finish)
        invariant Recorded(stored + candidates, l.log, nextIndex)
        decreases |l.log| + l.Ahead(l.arrivals) - nextIndex, !done
      {
        match r.value
        case File(path) =>
          ghost var before := l.log;
          RecordOne(stored + candidates, before, nextIndex, path);
          assert stored + candidates + [path] == stored + (candidates + [path]);
          candidates := candidates + [path];
          nextIndex := nextIndex + 1;
          r := l.Get(nextIndex);
          RecordedGrows(stored + candidates, before, l.log, nextIndex);
        case Finish =>
          done := true;
      }
      count := nextIndex - next;
      stored := stored + candidates;
      next := nextIndex;
      finished := done;
    }
  }

  /** The paths are those of the first `n` records, which are all files. */
  ghost predicate Recorded(paths: seq<Path>, log: seq<Entry>, n: nat) {
    n <= |log| && Files(paths) == Records(log[..n])
  }

  lemma RecordedGrows(paths: seq<Path>, log: seq<Entry>, more: seq<Entry>, n: nat)
    requires Recorded(paths, log, n) && log <= more
    ensures Recorded(paths, more, n)
  {
    assert more[..n] == log[..n];
  }

  lemma RecordOne(paths: seq<Path>, log: seq<Entry>, n: nat, path: Path)
    requires Recorded(paths, log, n) && n < |log| && log[n].record == File(path)
    ensures Recorded(paths + [path], log, n + 1)
  {
    assert log[..n + 1] == log[..n] + [log[n]];
    assert Files(paths + [path]) == Files(paths) + [File(path)];
    assert Records(log[..n + 1]) == Records(log[..n]) + [File(path)];
  }
}
