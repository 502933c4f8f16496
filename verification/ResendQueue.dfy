/** The single-consumer resend queue of the client interceptor, over streams that can break at any moment. */
module ResendQueue {

  /** A numbered request; the payload is whatever the caller hands over. */
  datatype Request<T> = Request(seqNo: nat, payload: T)

  /** What a consumer gets when it asks for its next request. */
  datatype Next<T> = Stop | Wait | Send(request: Request<T>)

  /** The queue as a value.  Consumers are numbered in the order of their creation. */
  datatype Queue<T> = Queue(seqNo: nat, offset: int, deque: seq<Request<T>>, consumer: int) {

    /** Sequence number of the oldest request still kept. */
    function Base(): int {
      seqNo - |deque|
    }

    /** The deque holds the consecutive requests [Base(), seqNo) of what was pulled; `offset` of them are sent. */
    ghost predicate Valid(pulled: seq<T>) {
      && |pulled| == seqNo && 0 <= Base() && 0 <= offset <= |deque|
      && forall i :: 0 <= i < |deque| ==> deque[i] == Request(Base() + i, pulled[Base() + i])
    }

    function Add(payload: T): Queue<T> {
      Queue(seqNo + 1, offset, deque + [Request(seqNo, payload)], consumer)
    }

    function Get(c: int): (Queue<T>, Next<T>)
      requires 0 <= offset <= |deque|
    {
      if c != consumer then (this, Stop)
      else if offset == |deque| then (this, Wait)
      else (this.(offset := offset + 1), Send(deque[offset]))
    }

    /** How many requests an acknowledgement drops. */
    function Dropped(ack: nat): (n: nat)
      requires ack < seqNo
      ensures n <= |deque|
    {
      if |deque| < seqNo - ack then 0 else |deque| - (seqNo - ack) + 1
    }

    function Ack(c: int, ack: nat): (Queue<T>, bool) {
      if c != consumer || ack >= seqNo then (this, false)
      else (Queue(seqNo, offset - Dropped(ack), deque[Dropped(ack)..], consumer), true)
    }

    function TakeOver(): Queue<T> {
      Queue(seqNo, 0, deque, consumer + 1)
    }
  }

  // ---------------------------------------------------------------- the queue object

  class SendRequestQueue<T> {
    var seqNo: nat
    var offset: int
    var deque: seq<Request<T>>
    var consumer: int

    function Value(): Queue<T>
      reads this
    {
      Queue(seqNo, offset, deque, consumer)
    }

    constructor ()
      ensures Value() == Queue(0, 0, [], -1)
    {
      seqNo, offset, deque, consumer := 0, 0, [], -1;
    }

    /** Pulls one more request from the caller's iterator. */
    method Add(payload: T)
      modifies this
      ensures Value() == old(Value()).Add(payload)
    {
      var req := Request(seqNo, payload);
      seqNo := seqNo + 1;
      deque := deque + [req];
    }

    method Get(c: int) returns (r: Next<T>)
      requires 0 <= offset <= |deque|
      modifies this
      ensures (Value(), r) == old(Value()).Get(c)
    {
      if consumer != c {
        return Stop;
      }
      if offset == |deque| {
        return Wait;
      }
      r := Send(deque[offset]);
      offset := offset + 1;
    }

    /** Drops every request up to `ack` that is still kept. */
    method Ack(c: int, ack: nat) returns (ok: bool)
      modifies this
      ensures (Value(), ok) == old(Value()).Ack(c, ack)
    {
      if consumer != c {
        return false;
      }
      if ack >= seqNo {
        return false;
      }
      var n := seqNo - ack;
      ghost var dropped := 0;
      while |deque| >= n
        invariant 0 <= dropped <= |old(deque)| && deque == old(deque)[dropped..] && offset == old(offset) - dropped
        invariant seqNo == old(seqNo) && consumer == old(consumer)
        invariant dropped > 0 ==> |deque| + 1 >= n
      {
        deque := deque[1..];
        offset := offset - 1;
        dropped := dropped + 1;
      }
      return true;
    }

    method Consumer() returns (c: int)
      modifies this
      ensures Value() == old(Value()).TakeOver() && c == consumer
    {
      offset := 0;
      consumer := consumer + 1;
      c := consumer;
    }
  }

  // ---------------------------------------------------------------- acknowledgements

  /** An accepted acknowledgement drops exactly the requests up to it. */
  lemma AckDropsUpTo<T>(q: Queue<T>, pulled: seq<T>, c: int, ack: nat)
    requires q.Valid(pulled) && q.Ack(c, ack).1
    ensures var q' := q.Ack(c, ack).0;
            && q'.Base() == (if q.Base() <= ack then ack + 1 else q.Base())
            && forall r :: r in q'.deque <==> r in q.deque && r.seqNo > ack
  {
    var q' := q.Ack(c, ack).0;
    forall i | 0 <= i < |q.deque| && q.deque[i].seqNo > ack ensures q.deque[i] in q'.deque {
      assert q.deque[i] == q'.deque[i - q.Dropped(ack)];
    }
  }

  /** What a consumer gets: nothing more once another has taken over, the next request it has not been sent, or nothing
      for now if it has been sent them all. */
  lemma GetIsExact<T>(q: Queue<T>, pulled: seq<T>, c: int)
    requires q.Valid(pulled)
    ensures var (after, next) := q.Get(c);
            var at := q.Base() + q.offset;
            && (next == Stop <==> c != q.consumer)
            && (next == Wait <==> c == q.consumer && at == |pulled|)
            && (next.Send? ==> at < |pulled| && next.request == Request(at, pulled[at])
                               && after == q.(offset := q.offset + 1))
            && (!next.Send? ==> after == q)
    ensures c <= q.consumer ==> q.TakeOver().Get(c).1 == Stop
  {
  }

  /** An acknowledgement keeps the queue valid exactly when it is ignored or names a request already sent
      to this consumer (or dropped before). */
  lemma AckKeepsValid<T>(q: Queue<T>, pulled: seq<T>, c: int, ack: nat)
    requires q.Valid(pulled)
    ensures q.Ack(c, ack).0.Valid(pulled) <==> c != q.consumer || ack >= q.seqNo || ack < q.Base() + q.offset
  {
  }

  // ---------------------------------------------------------------- the queue and its streams

  /** One call: what was sent on it, how much of that the server has read, the server's last read number, the
      acknowledgements it has answered with, and how many of those the client has read. */
  datatype Stream<T> = Stream(sent: seq<Request<T>>, read: nat, ack: nat, answers: seq<nat>, seen: nat)

  /** `pulled` is what the caller's iterator has produced and `delivered` what the server has read, on any stream. */
  datatype System<T> = System(queue: Queue<T>, streams: seq<Stream<T>>, pulled: seq<T>, delivered: seq<Request<T>>)

  datatype Action<T> =
    | Pull(payload: T)
    | Open
    | Transmit(stream: nat)
    | Deliver(stream: nat)
    | Answer(stream: nat)
    | Acknowledge(stream: nat)

  function Start<T>(): System<T> {
    System(Queue(0, 0, [], -1), [], [], [])
  }

  predicate Enabled<T>(s: System<T>, a: Action<T>) {
    match a
    case Pull(_) => true
    case Open => true
    case Transmit(c) => c < |s.streams| && 0 <= s.queue.offset <= |s.queue.deque|
    case Deliver(c) => c < |s.streams| && s.streams[c].read < |s.streams[c].sent|
    case Answer(c) => c < |s.streams|
    case Acknowledge(c) => c < |s.streams| && s.streams[c].seen < |s.streams[c].answers|
  }

  /** One atomic step.  A broken stream takes no more steps of its own, or goes on delivering what it already
      carries while later streams run. */
  function Step<T>(s: System<T>, a: Action<T>): System<T>
    requires Enabled(s, a)
  {
    match a
    case Pull(payload) => s.(queue := s.queue.Add(payload), pulled := s.pulled + [payload])
    case Open => s.(queue := s.queue.TakeOver(), streams := s.streams + [Stream([], 0, 0, [], 0)])
    case Transmit(c) =>
      var (queue, next) := s.queue.Get(c);
      if next.Send? then
        s.(queue := queue, streams := s.streams[c := s.streams[c].(sent := s.streams[c].sent + [next.request])])
      else s
    case Deliver(c) =>
      var st := s.streams[c];
      s.(streams := s.streams[c := st.(read := st.read + 1, ack := st.sent[st.read].seqNo)],
         delivered := s.delivered + [st.sent[st.read]])
    case Answer(c) =>
      var st := s.streams[c];
      s.(streams := s.streams[c := st.(answers := st.answers + [st.ack])])
    case Acknowledge(c) =>
      var st := s.streams[c];
      s.(queue := s.queue.Ack(c, st.answers[st.seen]).0, streams := s.streams[c := st.(seen := st.seen + 1)])
  }

  /** The state after a run; steps that are not possible are skipped. */
  function After<T>(actions: seq<Action<T>>): System<T> {
    if actions == [] then Start()
    else
      var s := After(actions[..|actions| - 1]);
      var a := actions[|actions| - 1];
      if Enabled(s, a) then Step(s, a) else s
  }

  /** No stream answers before it has read a request.  (Until then it would acknowledge request 0.) */
  ghost predicate AnswersAfterReading<T>(actions: seq<Action<T>>) {
    forall i, c: nat :: 0 <= i < |actions| && actions[i] == Answer(c) && c < |After(actions[..i]).streams| ==>
      After(actions[..i]).streams[c].read > 0
  }

  // ---------------------------------------------------------------- what every run keeps

  ghost function SeqNos<T>(d: seq<Request<T>>): set<nat> {
    set r | r in d :: r.seqNo
  }

  /** The numbers [0, n). */
  ghost function Below(n: nat): (r: set<nat>)
    ensures |r| == n && forall i: nat :: i in r <==> i < n
  {
    if n == 0 then {} else Below(n - 1) + {n - 1}
  }

  /** Each request is a repetition or the next one the server has not seen. */
  ghost predicate FirstsInOrder<T>(d: seq<Request<T>>) {
    d == [] || (FirstsInOrder(d[..|d| - 1]) && d[|d| - 1].seqNo <= |SeqNos(d[..|d| - 1])|)
  }

  /** The requests the server has seen are then always a prefix of those pulled. */
  lemma {:induction false} SeenIsPrefix<T>(d: seq<Request<T>>)
    requires FirstsInOrder(d)
    ensures SeqNos(d) == Below(|SeqNos(d)|)
  {
    hide SeqNos;
    if d == [] {
      NoneSeen(d);
    } else {
      var front, last := d[..|d| - 1], d[|d| - 1];
      assert FirstsInOrder(front) && last.seqNo <= |SeqNos(front)| && d == front + [last];
      hide FirstsInOrder;
      SeenIsPrefix(front);
      OneMoreSeen(front, last);
      BelowWith(|SeqNos(front)|, last.seqNo);
    }
  }

  lemma NoneSeen<T>(d: seq<Request<T>>)
    requires d == []
    ensures SeqNos(d) == Below(0)
  {
  }

  lemma BelowWith(n: nat, i: nat)
    requires i <= n
    ensures Below(n) + {i} == Below(if i < n then n else n + 1)
  {
  }

  lemma OneMoreSeen<T>(d: seq<Request<T>>, r: Request<T>)
    ensures SeqNos(d + [r]) == SeqNos(d) + {r.seqNo}
  {
    forall n | n in SeqNos(d) + {r.seqNo} ensures n in SeqNos(d + [r]) {
      if n == r.seqNo {
        assert r in d + [r];
      } else {
        var e :| e in d && e.seqNo == n;
        assert e in d + [r];
      }
    }
  }

  /** Number of the first request sent on a stream. */
  function First<T>(sent: seq<Request<T>>): nat {
    if sent == [] then 0 else sent[0].seqNo
  }

  /** A stream carries consecutive requests. */
  ghost predicate Consecutive<T>(sent: seq<Request<T>>, pulled: seq<T>) {
    && First(sent) + |sent| <= |pulled|
    && forall j :: 0 <= j < |sent| ==> sent[j] == Request(First(sent) + j, pulled[First(sent) + j])
  }

  /** One stream, against what was pulled and the number `seen` of requests the server has seen: it starts no later
      than the next unseen request, and answers only for what has been read from it. */
  ghost predicate StreamOk<T>(st: Stream<T>, pulled: seq<T>, seen: nat) {
    && Consecutive(st.sent, pulled) && st.read <= |st.sent|
    && (st.sent != [] ==> First(st.sent) + st.read <= seen)
    && (st.read > 0 ==> st.ack == First(st.sent) + st.read - 1)
    && (forall j :: 0 <= j < |st.answers| ==> st.sent != [] && st.answers[j] < First(st.sent) + st.read)
  }

  /** The current stream has been sent everything up to the queue's offset. */
  ghost predicate Current<T>(st: Stream<T>, q: Queue<T>) {
    if st.sent == [] then q.offset == 0 else First(st.sent) + |st.sent| == q.Base() + q.offset
  }

  ghost predicate Genuine<T>(delivered: seq<Request<T>>, pulled: seq<T>) {
    forall r :: r in delivered ==> r.seqNo < |pulled| && r.payload == pulled[r.seqNo]
  }

  ghost predicate StreamsOk<T>(streams: seq<Stream<T>>, pulled: seq<T>, seen: nat) {
    forall c :: 0 <= c < |streams| ==> StreamOk(streams[c], pulled, seen)
  }

  /** The newest stream is the queue's consumer. */
  ghost predicate Attached<T>(streams: seq<Stream<T>>, q: Queue<T>) {
    && q.consumer == |streams| - 1
    && if streams == [] then q.offset == 0 else Current(streams[|streams| - 1], q)
  }

  ghost predicate Safe<T>(s: System<T>) {
    && s.queue.Valid(s.pulled) && s.queue.Base() <= |SeqNos(s.delivered)|
    && FirstsInOrder(s.delivered) && Genuine(s.delivered, s.pulled)
    && StreamsOk(s.streams, s.pulled, |SeqNos(s.delivered)|)
    && Attached(s.streams, s.queue)
  }

  lemma MorePulled<T>(streams: seq<Stream<T>>, pulled: seq<T>, more: seq<T>, seen: nat, seen': nat)
    requires StreamsOk(streams, pulled, seen) && pulled <= more && seen <= seen'
    ensures StreamsOk(streams, more, seen')
  {
    forall c | 0 <= c < |streams| ensures StreamOk(streams[c], more, seen') {
      assert StreamOk(streams[c], pulled, seen);
    }
  }

  /** Changing one stream keeps the others. */
  lemma OneStream<T>(streams: seq<Stream<T>>, pulled: seq<T>, seen: nat, c: nat, st: Stream<T>)
    requires StreamsOk(streams, pulled, seen) && c < |streams| && StreamOk(st, pulled, seen)
    ensures StreamsOk(streams[c := st], pulled, seen)
  {
  }

  lemma PullIsSafe<T>(s: System<T>, payload: T)
    requires Safe(s)
    ensures Safe(Step(s, Pull(payload)))
  {
    hide FirstsInOrder, StreamsOk;
    MorePulled(s.streams, s.pulled, s.pulled + [payload], |SeqNos(s.delivered)|, |SeqNos(s.delivered)|);
  }

  lemma OpenIsSafe<T>(s: System<T>)
    requires Safe(s)
    ensures Safe(Step(s, Open))
  {
    hide FirstsInOrder;
  }

  lemma TransmitIsSafe<T>(s: System<T>, c: nat)
    requires Safe(s) && Enabled(s, Transmit(c))
    ensures Safe(Step(s, Transmit(c)))
  {
    hide FirstsInOrder, StreamsOk, Genuine, SeqNos;
    var st, q := s.streams[c], s.queue;
    if c == q.consumer && q.offset < |q.deque| {
      assert StreamOk(st, s.pulled, |SeqNos(s.delivered)|) by {
        StreamAt(s, c);
      }
      SendOne(st, q, s.pulled, |SeqNos(s.delivered)|);
      OneStream(s.streams, s.pulled, |SeqNos(s.delivered)|, c, st.(sent := st.sent + [q.deque[q.offset]]));
    }
  }

  lemma StreamAt<T>(s: System<T>, c: nat)
    requires Safe(s) && c < |s.streams|
    ensures StreamOk(s.streams[c], s.pulled, |SeqNos(s.delivered)|)
  {
    hide FirstsInOrder;
  }

  /** The current stream goes on with the next request of the queue. */
  lemma SendOne<T>(st: Stream<T>, q: Queue<T>, pulled: seq<T>, seen: nat)
    requires q.Valid(pulled) && q.Base() <= seen && StreamOk(st, pulled, seen) && Current(st, q)
    requires q.offset < |q.deque|
    ensures var st' := st.(sent := st.sent + [q.deque[q.offset]]);
            StreamOk(st', pulled, seen) && Current(st', q.(offset := q.offset + 1))
  {
  }

  /** Reading one more request of a stream: the server's numbers stay a prefix. */
  lemma DeliverGrows<T>(d: seq<Request<T>>, r: Request<T>)
    requires FirstsInOrder(d) && r.seqNo <= |SeqNos(d)|
    ensures FirstsInOrder(d + [r])
    ensures r.seqNo < |SeqNos(d + [r])| && |SeqNos(d)| <= |SeqNos(d + [r])|
  {
    assert (d + [r])[..|d|] == d;
    SeenIsPrefix(d + [r]);
    OneMoreSeen(d, r);
    SeenIsPrefix(d);
    hide SeqNos, FirstsInOrder;
    BelowWith(|SeqNos(d)|, r.seqNo);
  }

  /** The next request of a stream is a repetition or the next unseen one, and reading it keeps the stream in order. */
  lemma ReadOne<T>(st: Stream<T>, pulled: seq<T>, seen: nat, seen': nat)
    requires StreamOk(st, pulled, seen) && st.read < |st.sent| && seen <= seen'
    ensures var r := st.sent[st.read];
            && r.seqNo <= seen && r.seqNo < |pulled| && r.payload == pulled[r.seqNo]
            && (r.seqNo < seen' ==> StreamOk(st.(read := st.read + 1, ack := r.seqNo), pulled, seen'))
  {
  }

  lemma GenuineMore<T>(delivered: seq<Request<T>>, pulled: seq<T>, r: Request<T>)
    requires Genuine(delivered, pulled) && r.seqNo < |pulled| && r.payload == pulled[r.seqNo]
    ensures Genuine(delivered + [r], pulled)
  {
  }

  /** Reading does not move the newest stream. */
  lemma AttachedAfterRead<T>(streams: seq<Stream<T>>, q: Queue<T>, c: nat, st: Stream<T>)
    requires Attached(streams, q) && c < |streams| && st.sent == streams[c].sent
    ensures Attached(streams[c := st], q)
  {
  }

  lemma DeliverIsSafe<T>(s: System<T>, c: nat)
    requires Safe(s) && Enabled(s, Deliver(c))
    ensures Safe(Step(s, Deliver(c)))
  {
    var st := s.streams[c];
    var r := st.sent[st.read];
    var st' := st.(read := st.read + 1, ack := r.seqNo);
    assert Step(s, Deliver(c)) == s.(streams := s.streams[c := st'], delivered := s.delivered + [r]);
    StreamAt(s, c);
    hide FirstsInOrder, SeqNos, StreamsOk, Queue.Valid, Genuine, Attached, Step, Enabled;
    ReadOne(st, s.pulled, |SeqNos(s.delivered)|, |SeqNos(s.delivered)|);
    hide StreamOk, First;
    DeliverGrows(s.delivered, r);
    GenuineMore(s.delivered, s.pulled, r);
    StreamsAfterRead(s.streams, s.pulled, |SeqNos(s.delivered)|, |SeqNos(s.delivered + [r])|, c);
    AttachedAfterRead(s.streams, s.queue, c, st');
  }

  lemma StreamsAfterRead<T>(streams: seq<Stream<T>>, pulled: seq<T>, seen: nat, seen': nat, c: nat)
    requires StreamsOk(streams, pulled, seen) && seen <= seen' && c < |streams|
    requires streams[c].read < |streams[c].sent| && streams[c].sent[streams[c].read].seqNo < seen'
    ensures var st := streams[c];
            StreamsOk(streams[c := st.(read := st.read + 1, ack := st.sent[st.read].seqNo)], pulled, seen')
  {
    MorePulled(streams, pulled, pulled, seen, seen');
    ReadOne(streams[c], pulled, seen, seen');
  }

  lemma AnswerIsSafe<T>(s: System<T>, c: nat)
    requires Safe(s) && Enabled(s, Answer(c)) && s.streams[c].read > 0
    ensures Safe(Step(s, Answer(c)))
  {
    StreamAt(s, c);
    hide FirstsInOrder, SeqNos, StreamsOk, Queue.Valid;
    var st := s.streams[c];
    OneStream(s.streams, s.pulled, |SeqNos(s.delivered)|, c, st.(answers := st.answers + [st.ack]));
  }

  lemma AcknowledgeIsSafe<T>(s: System<T>, c: nat)
    requires Safe(s) && Enabled(s, Acknowledge(c))
    ensures Safe(Step(s, Acknowledge(c)))
    ensures c == |s.streams| - 1 ==> s.queue.Ack(c, s.streams[c].answers[s.streams[c].seen]).1
  {
    StreamAt(s, c);
    var st := s.streams[c];
    var ack := st.answers[st.seen];
    assert st.sent != [] && ack < First(st.sent) + st.read;
    assert StreamOk(st.(seen := st.seen + 1), s.pulled, |SeqNos(s.delivered)|);
    hide FirstsInOrder, SeqNos, StreamsOk;
    OneStream(s.streams, s.pulled, |SeqNos(s.delivered)|, c, st.(seen := st.seen + 1));
    if c == |s.streams| - 1 {
      AcceptOne(st, s.queue, s.pulled, |SeqNos(s.delivered)|, ack);
    }
  }

  /** An answer of the current stream names a request it was sent and the server has read. */
  lemma AcceptOne<T>(st: Stream<T>, q: Queue<T>, pulled: seq<T>, seen: nat, ack: nat)
    requires q.Valid(pulled) && q.Base() <= seen && StreamOk(st, pulled, seen) && Current(st, q)
    requires st.sent != [] && ack < First(st.sent) + st.read
    ensures var (q', ok) := q.Ack(q.consumer, ack);
            ok && q'.Valid(pulled) && q'.Base() <= seen && Current(st, q')
  {
    AckKeepsValid(q, pulled, q.consumer, ack);
  }

  /** No step loses or reorders anything, provided that a stream answers only after reading. */
  lemma StepIsSafe<T>(s: System<T>, a: Action<T>)
    requires Safe(s) && Enabled(s, a) && (a.Answer? ==> s.streams[a.stream].read > 0)
    ensures Safe(Step(s, a))
  {
    hide Safe, Step;
    match a
    case Pull(payload) => PullIsSafe(s, payload);
    case Open => OpenIsSafe(s);
    case Transmit(c) => TransmitIsSafe(s, c);
    case Deliver(c) => DeliverIsSafe(s, c);
    case Answer(c) => AnswerIsSafe(s, c);
    case Acknowledge(c) => AcknowledgeIsSafe(s, c);
  }

  /** Over every interleaving of pulls, sends, reads (also on streams that were given up), answers,
      acknowledgements and takeovers: nothing is lost, nothing is reordered. */
  lemma {:induction false} EveryRunIsSafe<T>(actions: seq<Action<T>>)
    requires AnswersAfterReading(actions)
    ensures Safe(After(actions))
  {
    if actions != [] {
      var front, a := actions[..|actions| - 1], actions[|actions| - 1];
      EarlierAnswers(actions);
      EveryRunIsSafe(front);
      if Enabled(After(front), a) {
        assert a.Answer? ==> actions[|actions| - 1] == Answer(a.stream);
        StepIsSafe(After(front), a);
      }
      hide Safe, Step;
    }
  }

  lemma EarlierAnswers<T>(actions: seq<Action<T>>)
    requires AnswersAfterReading(actions) && actions != []
    ensures AnswersAfterReading(actions[..|actions| - 1])
  {
    var front := actions[..|actions| - 1];
    forall i, c: nat | 0 <= i < |front| && front[i] == Answer(c) && c < |After(front[..i]).streams|
      ensures After(front[..i]).streams[c].read > 0
    {
      assert front[..i] == actions[..i] && actions[i] == Answer(c);
    }
  }

  /** A request the queue no longer keeps has reached the server; the others can all still be sent again. */
  lemma NothingIsLost<T>(actions: seq<Action<T>>)
    requires AnswersAfterReading(actions)
    ensures NoneLost(After(actions))
  {
    EveryRunIsSafe(actions);
    SafeLosesNothing(After(actions));
  }

  /** Every pulled request is kept or has reached the server. */
  ghost predicate NoneLost<T>(s: System<T>) {
    forall i :: 0 <= i < |s.pulled| ==> KeptOrRead(s, i)
  }

  ghost predicate KeptOrRead<T>(s: System<T>, i: nat)
    requires i < |s.pulled|
  {
    Request(i, s.pulled[i]) in s.queue.deque || Request(i, s.pulled[i]) in s.delivered
  }

  lemma SafeLosesNothing<T>(s: System<T>)
    requires Safe(s)
    ensures NoneLost(s)
  {
    forall i | 0 <= i < |s.pulled| ensures KeptOrRead(s, i) {
      if i < s.queue.Base() {
        ReadIfSeen(s, i);
      } else {
        assert s.queue.deque[i - s.queue.Base()] == Request(i, s.pulled[i]);
      }
    }
  }

  /** The requests read are exactly those below their number. */
  lemma ReadIfSeen<T>(s: System<T>, i: nat)
    requires FirstsInOrder(s.delivered) && Genuine(s.delivered, s.pulled) && i < |s.pulled|
    ensures Request(i, s.pulled[i]) in s.delivered <==> i < |SeqNos(s.delivered)|
  {
    SeenIsPrefix(s.delivered);
    if i < |SeqNos(s.delivered)| {
      assert i in SeqNos(s.delivered);
      var r :| r in s.delivered && r.seqNo == i;
    } else {
      assert i !in SeqNos(s.delivered);
    }
  }

  /** An acknowledgement, early or not, of stream `c`. */
  function Acknowledged<T>(s: System<T>, c: int, ack: nat): System<T> {
    s.(queue := s.queue.Ack(c, ack).0)
  }

  /** An acknowledgement is harmless, leaving the queue valid and no request lost, exactly when it is ignored or names a
      request that this consumer has sent (or that was dropped before) and that the server has read.  Being sent is not
      enough, nor is having been read on an earlier stream. */
  lemma HarmlessAcknowledgement<T>(s: System<T>, c: int, ack: nat)
    requires Safe(s)
    ensures Acknowledged(s, c, ack).queue.Valid(s.pulled) && NoneLost(Acknowledged(s, c, ack)) <==>
              || c != s.queue.consumer || ack >= s.queue.seqNo
              || (ack < s.queue.Base() + s.queue.offset && ack < |SeqNos(s.delivered)|)
  {
    var s' := Acknowledged(s, c, ack);
    AckKeepsValid(s.queue, s.pulled, c, ack);
    SafeLosesNothing(s);
    if c == s.queue.consumer && ack < s.queue.seqNo && s'.queue.Valid(s.pulled) {
      AckDropsUpTo(s.queue, s.pulled, c, ack);
      hide FirstsInOrder, SeqNos, StreamsOk, Attached, Queue.Ack;
      if ack < |SeqNos(s.delivered)| {
        forall i | 0 <= i < |s.pulled| ensures KeptOrRead(s', i) {
          ReadIfSeen(s, i);
          assert KeptOrRead(s, i);
        }
      } else {
        ReadIfSeen(s, ack);
        assert !KeptOrRead(s', ack);
      }
    }
  }

  /** The run after one more possible step. */
  lemma Do<T>(actions: seq<Action<T>>, s: System<T>, a: Action<T>)
    returns (actions': seq<Action<T>>, s': System<T>)
    requires s == After(actions) && Enabled(s, a)
    ensures actions' == actions + [a] && s' == Step(s, a) && s' == After(actions')
  {
    actions', s' := actions + [a], Step(s, a);
    assert actions'[..|actions|] == actions;
  }

  /** A stream that answers before it has read anything acknowledges request 0, which is then dropped unread, whether it
      had been sent or not. */
  lemma EarlyAnswerLosesRequest<T>(payload: T, sent: bool) returns (actions: seq<Action<T>>)
    ensures actions == [Pull(payload), Open] + (if sent then [Transmit(0)] else []) + [Answer(0), Acknowledge(0)]
    ensures !NoneLost(After(actions)) && (After(actions).queue.Valid([payload]) <==> sent)
  {
    var s: System<T> := Start();
    actions := [];
    hide After;
    assert s == After(actions) by {
      StartOfRun<T>();
    }
    actions, s := Do(actions, s, Pull(payload));
    actions, s := Do(actions, s, Open);
    assert s.queue == Queue(1, 0, [Request(0, payload)], 0) && s.streams == [Stream([], 0, 0, [], 0)];
    if sent {
      actions, s := Do(actions, s, Transmit(0));
    }
    actions := AnswerEarly(actions, s, payload);
  }

  lemma AnswerEarly<T>(actions: seq<Action<T>>, s: System<T>, payload: T) returns (actions': seq<Action<T>>)
    requires s == After(actions) && s.pulled == [payload] && s.delivered == [] && 0 <= s.queue.offset <= 1
    requires s.queue == Queue(1, s.queue.offset, [Request(0, payload)], 0)
    requires |s.streams| == 1 && s.streams[0].ack == 0 && s.streams[0].answers == [] && s.streams[0].seen == 0
    ensures actions' == actions + [Answer(0), Acknowledge(0)] && !NoneLost(After(actions'))
    ensures After(actions').queue.Valid([payload]) <==> s.queue.offset == 1
  {
    hide After;
    var s';
    actions', s' := Do(actions, s, Answer(0));
    assert s'.streams[0].answers == [0];
    actions', s' := Do(actions', s', Acknowledge(0));
    assert s'.queue.deque == [];
    assert !KeptOrRead(s', 0);
  }

  lemma StartOfRun<T>()
    ensures After<T>([]) == Start()
  {
  }

  /** Every response of the stream in use is accepted, so no response is swallowed. */
  lemma AnswersAreAccepted<T>(actions: seq<Action<T>>, c: nat)
    requires AnswersAfterReading(actions)
    requires var s := After(actions);
             Enabled(s, Acknowledge(c)) && c == |s.streams| - 1
    ensures var s := After(actions);
            s.queue.Ack(c, s.streams[c].answers[s.streams[c].seen]).1
  {
    EveryRunIsSafe(actions);
    AcknowledgeIsSafe(After(actions), c);
  }

  // ---------------------------------------------------------------- catching up

  lemma NoAnswerKeeps<T>(actions: seq<Action<T>>, a: Action<T>)
    requires AnswersAfterReading(actions) && !a.Answer?
    ensures AnswersAfterReading(actions + [a])
  {
    var all := actions + [a];
    forall i, c: nat | 0 <= i < |all| && all[i] == Answer(c) && c < |After(all[..i]).streams|
      ensures After(all[..i]).streams[c].read > 0
    {
      assert all[..i] == actions[..i] && actions[i] == Answer(c);
    }
  }

  /** The newest stream has been sent, and has delivered, the first `k` requests kept. */
  ghost predicate SentSoFar<T>(s: System<T>, k: nat) {
    && s.streams != [] && s.queue.consumer == |s.streams| - 1 && k == s.queue.offset <= |s.queue.deque|
    && var st := s.streams[|s.streams| - 1]; st.sent == s.queue.deque[..k] && st.read == k
  }

  lemma SendOneMore<T>(s: System<T>, k: nat)
    requires SentSoFar(s, k) && k < |s.queue.deque|
    ensures var c := |s.streams| - 1;
            && Enabled(s, Transmit(c)) && Enabled(Step(s, Transmit(c)), Deliver(c))
            && var s' := Step(Step(s, Transmit(c)), Deliver(c));
               && SentSoFar(s', k + 1) && s'.queue.deque == s.queue.deque && s'.pulled == s.pulled
               && |s'.streams| == |s.streams|
  {
    assert s.queue.deque[..k + 1] == s.queue.deque[..k] + [s.queue.deque[k]];
  }

  /** A stream that is left alone delivers everything that is kept. */
  lemma {:induction false} SendRest<T>(actions: seq<Action<T>>, s: System<T>, k: nat)
    returns (actions': seq<Action<T>>, s': System<T>)
    requires s == After(actions) && AnswersAfterReading(actions) && SentSoFar(s, k)
    ensures s' == After(actions') && AnswersAfterReading(actions') && s'.pulled == s.pulled && actions <= actions'
    ensures SentSoFar(s', |s'.queue.deque|)
    decreases |s.queue.deque| - k
  {
    hide *;
    actions', s' := actions, s;
    WithinDeque(s, k);
    if k < |s.queue.deque| {
      var c: nat := |s.streams| - 1;
      SendOneMore(s, k);
      NoAnswerKeeps(actions, Transmit(c));
      actions', s' := Do(actions, s, Transmit(c));
      NoAnswerKeeps(actions', Deliver(c));
      actions', s' := Do(actions', s', Deliver(c));
      actions', s' := SendRest(actions', s', k + 1);
    }
  }

  lemma WithinDeque<T>(s: System<T>, k: nat)
    requires SentSoFar(s, k)
    ensures k <= |s.queue.deque| && s.streams != []
  {
  }

  /** Whatever has happened and whatever was lost: a new stream that is left alone delivers all that has not arrived. */
  lemma CatchesUp<T>(actions: seq<Action<T>>) returns (actions': seq<Action<T>>)
    requires AnswersAfterReading(actions)
    ensures actions <= actions' && AnswersAfterReading(actions')
    ensures var s, s' := After(actions), After(actions');
            && s'.pulled == s.pulled && |SeqNos(s'.delivered)| == |s.pulled|
            && SentSoFar(s', |s'.queue.deque|)
  {
    var s;
    EveryRunIsSafe(actions);
    NoAnswerKeeps(actions, Open);
    actions', s := Do(actions, After(actions), Open);
    assert SentSoFar(s, 0);
    actions', s := SendRest(actions', s, 0);
    EveryRunIsSafe(actions');
    AllSeen(s);
  }

  /** When everything kept has been sent and read, everything pulled has been read. */
  lemma AllSeen<T>(s: System<T>)
    requires Safe(s) && SentSoFar(s, |s.queue.deque|)
    ensures |SeqNos(s.delivered)| == |s.pulled|
  {
    StreamAt(s, |s.streams| - 1);
    SeenWithin(s.delivered, s.pulled);
    hide FirstsInOrder, Genuine, SeqNos;
  }

  lemma SeenWithin<T>(delivered: seq<Request<T>>, pulled: seq<T>)
    requires FirstsInOrder(delivered) && Genuine(delivered, pulled)
    ensures |SeqNos(delivered)| <= |pulled|
  {
    SeenIsPrefix(delivered);
    if |SeqNos(delivered)| > 0 {
      assert |SeqNos(delivered)| - 1 in SeqNos(delivered);
      var r :| r in delivered && r.seqNo == |SeqNos(delivered)| - 1;
    }
  }
}
