/** One stream call after the other, each with a resend queue of its own whose numbers start again at 0. */
module StreamCalls {
  import opened Concatenation
  import R = ResendQueue

  /** The systems of all calls so far, and all that the server has read, on any stream of any call, under the number it
      has among the requests of all calls. */
  datatype System<T> = System(calls: seq<R.System<T>>, delivered: seq<R.Request<T>>)

  datatype Action<T> = NewCall | On(call: nat, action: R.Action<T>)

  function Start<T>(): System<T> {
    System([], [])
  }

  /** What each call has pulled from its iterator. */
  function Pulled<T>(calls: seq<R.System<T>>): seq<seq<T>> {
    seq(|calls|, j requires 0 <= j < |calls| => calls[j].pulled)
  }

  /** All requests of all calls, in order. */
  function Log<T>(s: System<T>): seq<T> {
    Flat(Pulled(s.calls))
  }

  /** The call has ended as the client sees it: its iterator and its queue have nothing more to send, and the server has
      read the current stream to its end. */
  predicate Ended<T>(s: R.System<T>) {
    && s.streams != [] && s.queue.offset == |s.queue.deque|
    && var st := s.streams[|s.streams| - 1]; st.read == |st.sent|
  }

  /** A new call begins when the last one has ended.  Streams of earlier calls may still deliver and answer.  A stream
      answers only after it has read a request, as the bridge's service does. */
  predicate Enabled<T>(s: System<T>, a: Action<T>) {
    match a
    case NewCall => s.calls == [] || Ended(s.calls[|s.calls| - 1])
    case On(j, a) =>
      && j < |s.calls| && R.Enabled(s.calls[j], a)
      && (j < |s.calls| - 1 ==> a.Deliver? || a.Answer?)
      && (a.Answer? ==> s.calls[j].streams[a.stream].read > 0)
  }

  /** The request that stream `c` delivers next. */
  function Head<T>(call: R.System<T>, c: nat): R.Request<T>
    requires R.Enabled(call, R.Deliver(c))
  {
    call.streams[c].sent[call.streams[c].read]
  }

  /** A request of call `j`, numbered among those of all calls. */
  function Numbered<T>(calls: seq<R.System<T>>, j: nat, r: R.Request<T>): R.Request<T>
    requires j < |calls|
  {
    R.Request(StartOf(Pulled(calls), j) + r.seqNo, r.payload)
  }

  function Step<T>(s: System<T>, a: Action<T>): System<T>
    requires Enabled(s, a)
  {
    match a
    case NewCall => s.(calls := s.calls + [R.Start()])
    case On(j, a) =>
      System(s.calls[j := R.Step(s.calls[j], a)],
             if a.Deliver? then s.delivered + [Numbered(s.calls, j, Head(s.calls[j], a.stream))] else s.delivered)
  }

  /** The state after a run; steps that are not possible are skipped. */
  function After<T>(actions: seq<Action<T>>): System<T> {
    if actions == [] then Start()
    else
      var s := After(actions[..|actions| - 1]);
      var a := actions[|actions| - 1];
      if Enabled(s, a) then Step(s, a) else s
  }

  // ---------------------------------------------------------------- what every run keeps

  /** How many different requests of this call the server has read. */
  ghost function Seen<T>(s: R.System<T>): nat {
    |R.SeqNos(s.delivered)|
  }

  /** How many requests the earlier calls had, and how many of the last one have been read. */
  ghost function SeenOfAll<T>(calls: seq<R.System<T>>): nat {
    if calls == [] then 0 else StartOf(Pulled(calls), |calls| - 1) + Seen(calls[|calls| - 1])
  }

  /** Every call is safe, and all but the last have been read completely. */
  ghost predicate CallsOk<T>(calls: seq<R.System<T>>) {
    && (forall j :: 0 <= j < |calls| ==> R.Safe(calls[j]))
    && (forall j :: 0 <= j < |calls| - 1 ==> ReadOut(calls[j]))
  }

  ghost predicate ReadOut<T>(s: R.System<T>) {
    Seen(s) == |s.pulled|
  }

  ghost predicate Safe<T>(s: System<T>) {
    && CallsOk(s.calls) && R.FirstsInOrder(s.delivered) && R.Genuine(s.delivered, Log(s))
    && |R.SeqNos(s.delivered)| == SeenOfAll(s.calls)
  }

  /** A call that has ended has been read completely. */
  lemma EndedIsReadOut<T>(s: R.System<T>)
    requires R.Safe(s) && Ended(s)
    ensures ReadOut(s)
  {
    R.SeenWithin(s.delivered, s.pulled);
    R.StreamAt(s, |s.streams| - 1);
    hide R.FirstsInOrder, R.Genuine, R.SeqNos;
  }

  /** A further delivery of what is at most the next unseen request. */
  lemma SeenAfter<T>(d: seq<R.Request<T>>, r: R.Request<T>)
    requires R.FirstsInOrder(d) && r.seqNo <= |R.SeqNos(d)|
    ensures |R.SeqNos(d + [r])| == |R.SeqNos(d)| + if r.seqNo == |R.SeqNos(d)| then 1 else 0
  {
    R.SeenIsPrefix(d);
    R.OneMoreSeen(d, r);
    hide R.SeqNos, R.FirstsInOrder;
    R.BelowWith(|R.SeqNos(d)|, r.seqNo);
  }

  /** What one step of a call does to what it has pulled and to what of it has been read. */
  lemma CallStep<T>(s: R.System<T>, a: R.Action<T>)
    requires R.Safe(s) && R.Enabled(s, a) && (a.Answer? ==> s.streams[a.stream].read > 0)
    ensures R.Safe(R.Step(s, a))
    ensures R.Step(s, a).pulled == if a.Pull? then s.pulled + [a.payload] else s.pulled
    ensures a.Deliver? ==>
              var r := Head(s, a.stream);
              && r.seqNo <= Seen(s) && r.seqNo < |s.pulled| && r.payload == s.pulled[r.seqNo]
              && Seen(R.Step(s, a)) == Seen(s) + if r.seqNo == Seen(s) then 1 else 0
    ensures !a.Deliver? ==> Seen(R.Step(s, a)) == Seen(s)
  {
    R.StepIsSafe(s, a);
    if a.Deliver? {
      R.StreamAt(s, a.stream);
      R.ReadOne(s.streams[a.stream], s.pulled, Seen(s), Seen(s));
      SeenAfter(s.delivered, s.streams[a.stream].sent[s.streams[a.stream].read]);
    }
    hide R.Safe, R.FirstsInOrder, R.SeqNos, R.Genuine, R.StreamOk, R.StreamsOk;
  }

  /** What is known of one call. */
  lemma CallAt<T>(s: System<T>, j: nat)
    requires Safe(s) && j < |s.calls|
    ensures R.Safe(s.calls[j]) && (j < |s.calls| - 1 ==> ReadOut(s.calls[j]))
  {
  }

  /** A step of one call leaves the others alone. */
  lemma OneCall<T>(calls: seq<R.System<T>>, j: nat, call: R.System<T>)
    requires CallsOk(calls) && j < |calls| && R.Safe(call) && (j < |calls| - 1 ==> ReadOut(call))
    ensures CallsOk(calls[j := call])
    ensures call.pulled == calls[j].pulled ==> Pulled(calls[j := call]) == Pulled(calls)
  {
    hide R.Safe, ReadOut;
  }

  /** ... and the count of what has been read, unless the last call reads something new. */
  lemma SeenWithCall<T>(calls: seq<R.System<T>>, j: nat, call: R.System<T>)
    requires j < |calls| && call.pulled == calls[j].pulled
    ensures SeenOfAll(calls[j := call])
         == SeenOfAll(calls) + if j == |calls| - 1 then Seen(call) - Seen(calls[j]) else 0
  {
    assert Pulled(calls[j := call]) == Pulled(calls);
    hide StartOf, Seen;
  }

  /** One call more. */
  lemma CallsGrow<T>(calls: seq<R.System<T>>)
    requires calls != [] ==> ReadOut(calls[|calls| - 1])
    ensures SeenOfAll(calls + [R.Start()]) == SeenOfAll(calls)
    ensures Flat(Pulled(calls + [R.Start()])) == Flat(Pulled(calls))
  {
    var n, p := |calls|, Pulled(calls);
    var more := calls + [R.Start<T>()];
    StartIsSafe<T>();
    assert Pulled(more) == p + [[]] && more[n] == R.Start();
    hide Flat, StartOf, Seen, R.Start, R.Safe, Pulled;
    FlatMore(p, []);
    StartOfMore(p, [], n);
    StartOfFirst(p);
    if n > 0 {
      PulledAt(calls, n - 1);
      StartOfNext(p, n - 1);
    }
  }

  lemma OneCallMore<T>(calls: seq<R.System<T>>)
    requires CallsOk(calls) && (calls != [] ==> ReadOut(calls[|calls| - 1]))
    ensures CallsOk(calls + [R.Start()])
  {
    StartIsSafe<T>();
    hide R.Safe, ReadOut;
  }

  lemma PulledAt<T>(calls: seq<R.System<T>>, j: nat)
    requires j < |calls|
    ensures |Pulled(calls)| == |calls| && Pulled(calls)[j] == calls[j].pulled
  {
  }

  lemma StartIsSafe<T>()
    ensures R.Safe(R.Start<T>()) && Seen(R.Start<T>()) == 0
  {
    R.EveryRunIsSafe<T>([]);
    R.NoneSeen<T>([]);
  }

  lemma NewCallIsSafe<T>(s: System<T>)
    requires Safe(s) && Enabled(s, NewCall)
    ensures Safe(Step(s, NewCall))
  {
    if s.calls != [] {
      CallAt(s, |s.calls| - 1);
      EndedIsReadOut(s.calls[|s.calls| - 1]);
    }
    CallsGrow(s.calls);
    OneCallMore(s.calls);
    hide CallsOk, R.FirstsInOrder, R.SeqNos, R.Genuine, ReadOut, Flat, SeenOfAll, Ended, Pulled, R.Start;
  }

  /** Steps that neither pull nor deliver. */
  lemma OtherIsSafe<T>(s: System<T>, j: nat, a: R.Action<T>)
    requires Safe(s) && Enabled(s, On(j, a)) && !a.Deliver? && !a.Pull?
    ensures Safe(Step(s, On(j, a)))
  {
    var call := R.Step(s.calls[j], a);
    CallAt(s, j);
    CallStep(s.calls[j], a);
    OneCall(s.calls, j, call);
    SeenWithCall(s.calls, j, call);
    hide CallsOk, R.FirstsInOrder, R.SeqNos, R.Genuine, Seen, SeenOfAll, Flat, Pulled, R.Step, R.Enabled;
  }

  /** The last call pulls one more request. */
  lemma LogGrows<T>(calls: seq<R.System<T>>, call: R.System<T>, payload: T)
    requires calls != [] && call.pulled == calls[|calls| - 1].pulled + [payload]
    requires Seen(call) == Seen(calls[|calls| - 1])
    ensures var more := calls[|calls| - 1 := call];
            Flat(Pulled(more)) == Flat(Pulled(calls)) + [payload] && SeenOfAll(more) == SeenOfAll(calls)
  {
    var n := |calls| - 1;
    var more, front := calls[n := call], Pulled(calls[..n]);
    assert Pulled(calls) == front + [calls[n].pulled];
    assert Pulled(more) == front + [call.pulled];
    hide Pulled, Seen;
    FlatMore(front, calls[n].pulled);
    FlatMore(front, call.pulled);
    StartOfMore(front, calls[n].pulled, n);
    StartOfMore(front, call.pulled, n);
    hide Flat, StartOf;
  }

  lemma PullIsSafe<T>(s: System<T>, j: nat, payload: T)
    requires Safe(s) && Enabled(s, On(j, R.Pull(payload)))
    ensures Safe(Step(s, On(j, R.Pull(payload))))
  {
    var call := R.Step(s.calls[j], R.Pull(payload));
    CallAt(s, j);
    CallStep(s.calls[j], R.Pull(payload));
    OneCall(s.calls, j, call);
    LogGrows(s.calls, call, payload);
    GenuineGrows(s.delivered, Log(s), payload);
    hide CallsOk, R.FirstsInOrder, R.SeqNos, R.Genuine, Seen, SeenOfAll, Flat, Pulled, R.Step, R.Enabled;
  }

  lemma GenuineGrows<T>(delivered: seq<R.Request<T>>, log: seq<T>, payload: T)
    requires R.Genuine(delivered, log)
    ensures R.Genuine(delivered, log + [payload])
  {
  }

  /** Request `k` of call `j` in the log of all calls. */
  lemma Locate<T>(pulled: seq<seq<T>>, j: nat, k: nat)
    requires j < |pulled| && k < |pulled[j]|
    ensures StartOf(pulled, j) + k < |Flat(pulled)| && Flat(pulled)[StartOf(pulled, j) + k] == pulled[j][k]
    ensures j < |pulled| - 1 ==> StartOf(pulled, j) + k < StartOf(pulled, |pulled| - 1)
  {
    hide *;
    ItemOfFile(pulled, j, k);
    if j < |pulled| - 1 {
      StartOfNext(pulled, j);
      StartOfGrows(pulled, j + 1, |pulled| - 1);
    }
  }

  /** A request of call `j` that has been read or is the next one of its call has been read or is the next one of
      all. */
  lemma SeenOrNext<T>(calls: seq<R.System<T>>, j: nat, r: R.Request<T>)
    requires j < |calls| && (j < |calls| - 1 ==> ReadOut(calls[j]))
    requires r.seqNo < |calls[j].pulled| && r.payload == calls[j].pulled[r.seqNo] && r.seqNo <= Seen(calls[j])
    ensures var n := Numbered(calls, j, r);
            && n.seqNo < |Flat(Pulled(calls))| && n.payload == Flat(Pulled(calls))[n.seqNo]
            && n.seqNo <= SeenOfAll(calls)
            && (n.seqNo == SeenOfAll(calls) <==> j == |calls| - 1 && r.seqNo == Seen(calls[j]))
  {
    PulledAt(calls, j);
    hide Seen, Flat, StartOf, Pulled;
    Locate(Pulled(calls), j, r.seqNo);
  }

  /** What a delivery on a stream of any call means for all calls. */
  lemma CallDelivers<T>(calls: seq<R.System<T>>, j: nat, c: nat)
    requires CallsOk(calls) && j < |calls| && R.Enabled(calls[j], R.Deliver(c))
    ensures var after := calls[j := R.Step(calls[j], R.Deliver(c))];
            var r := Numbered(calls, j, Head(calls[j], c));
            && CallsOk(after) && Pulled(after) == Pulled(calls)
            && r.seqNo < |Flat(Pulled(calls))| && r.payload == Flat(Pulled(calls))[r.seqNo]
            && r.seqNo <= SeenOfAll(calls)
            && SeenOfAll(after) == SeenOfAll(calls) + if r.seqNo == SeenOfAll(calls) then 1 else 0
  {
    assert R.Safe(calls[j]) && (j < |calls| - 1 ==> ReadOut(calls[j]));
    CallStep(calls[j], R.Deliver(c));
    SeenOrNext(calls, j, Head(calls[j], c));
    hide R.Safe, R.Step, R.Enabled, Head, Seen, SeenOfAll, Flat, Pulled, Numbered, CallsOk;
    OneCall(calls, j, R.Step(calls[j], R.Deliver(c)));
    SeenWithCall(calls, j, R.Step(calls[j], R.Deliver(c)));
  }

  lemma DeliverIsSafe<T>(s: System<T>, j: nat, c: nat)
    requires Safe(s) && Enabled(s, On(j, R.Deliver(c)))
    ensures Safe(Step(s, On(j, R.Deliver(c))))
  {
    CallDelivers(s.calls, j, c);
    var r := Numbered(s.calls, j, Head(s.calls[j], c));
    SeenAfter(s.delivered, r);
    R.DeliverGrows(s.delivered, r);
    R.GenuineMore(s.delivered, Log(s), r);
    hide CallsOk, R.FirstsInOrder, R.SeqNos, R.Genuine, SeenOfAll, Flat, Pulled, R.Step, R.Enabled, Numbered, Head;
  }

  lemma StepIsSafe<T>(s: System<T>, a: Action<T>)
    requires Safe(s) && Enabled(s, a)
    ensures Safe(Step(s, a))
  {
    hide Safe, Step;
    match a
    case NewCall => NewCallIsSafe(s);
    case On(j, b) =>
      match b
      case Pull(payload) => PullIsSafe(s, j, payload);
      case Deliver(c) => DeliverIsSafe(s, j, c);
      case _ => OtherIsSafe(s, j, b);
  }

  // ---------------------------------------------------------------- main results

  /** Over any number of calls, with everything each of them goes through, and with streams of earlier calls still
      delivering: nothing is lost, nothing is reordered across the calls. */
  lemma {:induction false} EveryRunIsSafe<T>(actions: seq<Action<T>>)
    ensures Safe(After(actions))
  {
    if actions == [] {
      R.NoneSeen<T>([]);
    } else {
      var front, a := actions[..|actions| - 1], actions[|actions| - 1];
      EveryRunIsSafe(front);
      if Enabled(After(front), a) {
        StepIsSafe(After(front), a);
      }
      hide Safe, Step;
    }
  }

  /** When the last call has ended, every request of every call has reached the server. */
  lemma AllHaveArrived<T>(actions: seq<Action<T>>)
    requires Enabled(After(actions), NewCall)
    ensures var s := After(actions);
            |R.SeqNos(s.delivered)| == |Log(s)|
            && forall i :: 0 <= i < |Log(s)| ==> R.Request(i, Log(s)[i]) in s.delivered
  {
    EveryRunIsSafe(actions);
    hide After;
    SafeHasArrived(After(actions));
  }

  lemma SafeHasArrived<T>(s: System<T>)
    requires Safe(s) && Enabled(s, NewCall)
    ensures |R.SeqNos(s.delivered)| == |Log(s)|
    ensures forall i :: 0 <= i < |Log(s)| ==> R.Request(i, Log(s)[i]) in s.delivered
  {
    var n := |s.calls|;
    StartOfFirst(Pulled(s.calls));
    if n > 0 {
      CallAt(s, n - 1);
      EndedIsReadOut(s.calls[n - 1]);
      StartOfNext(Pulled(s.calls), n - 1);
    }
    hide CallsOk, Flat, StartOf, R.Safe, Ended;
    R.SeenIsPrefix(s.delivered);
    forall i | 0 <= i < |Log(s)| ensures R.Request(i, Log(s)[i]) in s.delivered {
      assert i in R.SeqNos(s.delivered);
      var r :| r in s.delivered && r.seqNo == i;
    }
  }
}
