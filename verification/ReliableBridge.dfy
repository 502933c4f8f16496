/** Two bridges end to end: one bridge's calls, its resend queue and streams, the other bridge's state. */
module ReliableBridge {
  import opened ResendQueue
  import opened Wrappers
  import B = Bridge
  import S = StreamCalls

  /** The numbers of the requests the events deliver. */
  function Delivered(events: seq<B.Event>): seq<nat> {
    if events == [] then []
    else
      Delivered(events[..|events| - 1])
        + if events[|events| - 1].Deliver? then [events[|events| - 1].index] else []
  }

  function Numbers<T>(d: seq<Request<T>>): seq<nat> {
    seq(|d|, i requires 0 <= i < |d| => d[i].seqNo)
  }

  /** The last delivery, and what came before it. */
  lemma LastDelivery<T>(d: seq<Request<T>>, events: seq<B.Event>)
    requires Delivered(events) == Numbers(d) && events != [] && events[|events| - 1].Deliver?
    ensures d != [] && events[|events| - 1].index == d[|d| - 1].seqNo
    ensures Delivered(events[..|events| - 1]) == Numbers(d[..|d| - 1])
  {
    assert |Numbers(d)| == |d|;
    assert Delivered(events[..|events| - 1]) == Delivered(events)[..|d| - 1];
    assert Numbers(d[..|d| - 1]) == Numbers(d)[..|d| - 1];
  }

  /** What the queue delivers are first deliveries in order, with repetitions. */
  lemma {:induction false} QueueDeliversInOrder(d: seq<Request<B.Message>>, log: seq<B.Message>, events: seq<B.Event>)
    requires Delivered(events) == Numbers(d) && FirstsInOrder(d)
    requires forall r :: r in d ==> r.seqNo < |log|
    ensures B.FirstsInOrder(log, events) && B.Seen(events) == |SeqNos(d)|
    decreases |events|
  {
    if events == [] {
      assert |Numbers(d)| == 0;
      NoneSeen(d);
    } else {
      var front, e := events[..|events| - 1], events[|events| - 1];
      if e.Deliver? {
        LastDelivery(d, events);
        var before, r := d[..|d| - 1], d[|d| - 1];
        assert d == before + [r] && r in d;
        assert forall q :: q in before ==> q in d;
        hide Delivered, Numbers, SeqNos;
        QueueDeliversInOrder(before, log, front);
        SeenIsPrefix(before);
        OneMoreSeen(before, r);
        BelowWith(|SeqNos(before)|, r.seqNo);
      } else {
        QueueDeliversInOrder(d, log, front);
      }
    }
  }

  /** The peer's application made the calls `calls`; its stream calls, one after the other and each with a resend queue
      of its own, took the first transmitted messages and ran as `actions`; what was read on any stream reached this
      bridge among the events `events`. */
  ghost predicate Exchange(calls: seq<B.Call>, actions: seq<S.Action<B.Message>>, events: seq<B.Event>) {
    && S.Log(S.After(actions)) <= B.Calls(calls).log
    && Delivered(events) == Numbers(S.After(actions).delivered)
  }

  /** Exactly once, end to end: over every behaviour of the peer's application, every run of its stream calls with their
      queues and streams, and every interleaving with this side's own calls, each message counts once and in order. */
  lemma EachMessageCountsOnce(calls: seq<B.Call>, actions: seq<S.Action<B.Message>>, events: seq<B.Event>)
    requires Exchange(calls, actions, events) && B.OnePayload(B.Calls(calls).log)
    ensures var log := B.Calls(calls).log;
            var n := |SeqNos(S.After(actions).delivered)|;
            var s := B.Run(log, events);
            && n == B.Seen(events) <= |log| && B.InTurn(log) && B.FirstsInOrder(log, events)
            && s == B.Expected(log[..n], s.current, s.next)
  {
    S.EveryRunIsSafe(actions);
    B.BridgeTransmitsInTurn(calls);
    var log, delivered := B.Calls(calls).log, S.After(actions).delivered;
    hide S.After, B.InTurn, B.OnePayload, B.Calls, Delivered, FirstsInOrder, SeqNos;
    forall r | r in delivered ensures r.seqNo < |log| {
    }
    hide Genuine, S.Log, Numbers, B.FirstsInOrder, B.Run, B.Expected, B.Seen;
    QueueDeliversInOrder(delivered, log, events);
    B.ExactlyOnce(log, events);
  }

  lemma ReceiveFindsWhatWasSent(calls: seq<B.Call>, actions: seq<S.Action<B.Message>>, events: seq<B.Event>, k: nat,
                                name: string, payload: B.Payload)
    requires Exchange(calls, actions, events) && B.OnePayload(B.Calls(calls).log)
    requires B.Run(B.Calls(calls).log, events).current == Some(k)
    ensures var s := B.Run(B.Calls(calls).log, events);
            && (B.LookFor(s, k, name, false) == B.Found(payload) ==> B.DataMsg(k, name, payload) in B.Calls(calls).log)
            && (B.LookFor(s, k, name, false) == B.Failed(B.PeerCommitted) ==>
                  B.DataMsg(k, name, payload) !in B.Calls(calls).log)
  {
    EachMessageCountsOnce(calls, actions, events);
    B.ReceiveIsExact(B.Calls(calls).log, events, k, name, false);
    hide B.Run, B.LookFor, B.FirstsInOrder, B.InTurn, B.Calls, Exchange;
  }

  /** Once the peer's stream calls have taken everything and the last of them has ended, this bridge has received
      everything: a receive that finds no data has none to wait for. */
  lemma NothingStaysBehind(calls: seq<B.Call>, actions: seq<S.Action<B.Message>>, events: seq<B.Event>, k: nat,
                           name: string, payload: B.Payload)
    requires Exchange(calls, actions, events) && B.OnePayload(B.Calls(calls).log)
    requires S.Log(S.After(actions)) == B.Calls(calls).log && S.Enabled(S.After(actions), S.NewCall)
    requires B.Run(B.Calls(calls).log, events).current == Some(k)
    ensures var log := B.Calls(calls).log;
            B.LookFor(B.Run(log, events), k, name, false) == B.Found(payload) <==> B.DataMsg(k, name, payload) in log
  {
    EachMessageCountsOnce(calls, actions, events);
    S.AllHaveArrived(actions);
    var log := B.Calls(calls).log;
    assert log[..|log|] == log;
    B.ReceiveIsExact(log, events, k, name, false);
    hide B.Run, B.LookFor, B.FirstsInOrder, B.InTurn, B.Calls, Exchange, S.Enabled, S.After, S.Log;
  }
}
