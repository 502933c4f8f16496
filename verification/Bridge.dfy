/** The trainer bridge: iterations with start, data and commit messages, over a transport that repeats messages. */
module Bridge {
  import opened Wrappers

  /** Serialized tensors and protobufs are opaque here. */
  type Payload = seq<int>

  datatype Message =
    | StartMsg(iter: nat)
    | DataMsg(iter: nat, name: string, payload: Payload)
    | CommitMsg(iter: nat)

  type Store = map<nat, map<string, Payload>>

  /** `received[iter][name] = payload`. */
  function Put(store: Store, iter: nat, name: string, payload: Payload): Store {
    store[iter := (if iter in store then store[iter] else map[])[name := payload]]
  }

  ghost predicate Has(store: Store, iter: nat, name: string, payload: Payload) {
    iter in store && name in store[iter] && store[iter][name] == payload
  }

  /** What the two threads of a bridge share. */
  datatype State = State(current: Option<nat>, next: nat, peerStart: Option<nat>, peerCommit: Option<nat>,
                         received: Store)

  const INIT := State(None, 0, None, None, map[])

  datatype Error = NotConnected | Terminated | NotStarted | NotCommitted | IterChanged | PeerCommitted | PeerTerminated

  /** One look at the received data. */
  datatype Look = Found(payload: Payload) | Failed(error: Error) | Waiting

  /** The iteration whose data is still of use. */
  function Iter(s: State): nat {
    if s.current.Some? then s.current.value else s.next
  }

  function Committed(s: State, iter: nat): bool {
    s.peerCommit.Some? && iter <= s.peerCommit.value
  }

  /** `_transmit_handler`. */
  function Handle(s: State, m: Message): State {
    match m
    case StartMsg(iter) =>
      if Committed(s, iter) || s.peerStart.Some? then s else s.(peerStart := Some(iter))
    case DataMsg(iter, name, payload) =>
      if s.peerStart != Some(iter) || iter < Iter(s) then s else s.(received := Put(s.received, iter, name, payload))
    case CommitMsg(iter) =>
      if Committed(s, iter) || s.peerStart != Some(iter) then s else s.(peerStart := None, peerCommit := Some(iter))
  }

  function StartIter(s: State): State {
    if s.current.Some? then s else s.(current := Some(s.next), next := s.next + 1)
  }

  function CommitIter(s: State): State {
    if s.current.None? then s else s.(current := None, received := s.received - {s.current.value})
  }

  function LookFor(s: State, iter: nat, name: string, peerTerminated: bool): Look {
    if iter in s.received && name in s.received[iter] then Found(s.received[iter][name])
    else if s.current.None? then Failed(NotStarted)
    else if iter != s.current.value then Failed(IterChanged)
    else if Committed(s, iter) then Failed(PeerCommitted)
    else if peerTerminated then Failed(PeerTerminated)
    else Waiting
  }

  // ---------------------------------------------------------------- the bridge object

  class Bridge {
    var connected: bool
    var terminated: bool
    var peerTerminated: bool
    var current: Option<nat>
    var next: nat
    var peerStart: Option<nat>
    var peerCommit: Option<nat>
    var received: Store
    /** Everything ever put on the stream queue. */
    var transmitted: seq<Message>

    function Value(): State
      reads this
    {
      State(current, next, peerStart, peerCommit, received)
    }

    /** What the calls so far have transmitted. */
    function Sending(): Sender
      reads this
    {
      Sender(current, next, transmitted)
    }

    constructor ()
      ensures Sending() == Calls([])
      ensures Value() == INIT && transmitted == [] && !connected && !terminated && !peerTerminated
    {
      connected, terminated, peerTerminated := false, false, false;
      current, next, peerStart, peerCommit, received, transmitted := None, 0, None, None, map[], [];
    }

    predicate Ready()
      reads this
    {
      connected && !terminated
    }

    function NotReady(): Error
      reads this
    {
      if !connected then NotConnected else Terminated
    }

    method TransmitHandler(m: Message)
      modifies this`peerStart, this`peerCommit, this`received
      ensures Value() == Handle(old(Value()), m)
    {
      match m
      case StartMsg(iter) =>
        if peerCommit.Some? && iter <= peerCommit.value {
        } else if peerStart.Some? {
        } else {
          peerStart := Some(iter);
        }
      case DataMsg(iter, name, payload) =>
        if peerStart.None? {
        } else if peerStart.value != iter {
        } else {
          var iterId := if current.Some? then current.value else next;
          if iter >= iterId {
            if iter !in received {
              received := received[iter := map[]];
            }
            received := received[iter := received[iter][name := payload]];
          }
        }
      case CommitMsg(iter) =>
        if peerCommit.Some? && iter <= peerCommit.value {
        } else if peerStart.None? {
        } else if iter != peerStart.value {
        } else {
          peerStart := None;
          peerCommit := Some(iter);
        }
    }

    method Start() returns (failure: Option<Error>)
      modifies this`current, this`next, this`transmitted
      ensures failure == if !connected then Some(NotConnected) else if terminated then Some(Terminated)
                         else if old(current).Some? then Some(NotCommitted) else None
      ensures failure.Some? ==> Value() == old(Value()) && transmitted == old(transmitted)
      ensures failure.None? ==>
                Value() == StartIter(old(Value())) && transmitted == old(transmitted) + [StartMsg(old(next))]
      ensures Ready() ==> Sending() == Call1(old(Sending()), CallStart)
    {
      if !Ready() {
        return Some(NotReady());
      }
      if current.Some? {
        return Some(NotCommitted);
      }
      current := Some(next);
      next := next + 1;
      transmitted := transmitted + [StartMsg(current.value)];
      return None;
    }

    method Commit() returns (failure: Option<Error>)
      modifies this`current, this`received, this`transmitted
      ensures failure == if !connected then Some(NotConnected) else if terminated then Some(Terminated)
                         else if old(current).None? then Some(NotStarted) else None
      ensures failure.Some? ==> Value() == old(Value()) && transmitted == old(transmitted)
      ensures failure.None? ==>
                && Value() == CommitIter(old(Value()))
                && transmitted == old(transmitted) + [CommitMsg(old(current).value)]
      ensures Ready() ==> Sending() == Call1(old(Sending()), CallCommit)
    {
      if !Ready() {
        return Some(NotReady());
      }
      if current.None? {
        return Some(NotStarted);
      }
      transmitted := transmitted + [CommitMsg(current.value)];
      if current.value in received {
        received := received - {current.value};
      }
      current := None;
      return None;
    }

    method Send(name: string, payload: Payload) returns (failure: Option<Error>)
      modifies this`transmitted
      ensures failure == if !connected then Some(NotConnected) else if terminated then Some(Terminated)
                         else if current.None? then Some(NotStarted) else None
      ensures transmitted == if failure.Some? then old(transmitted)
                             else old(transmitted) + [DataMsg(current.value, name, payload)]
      ensures Ready() ==> Sending() == Call1(old(Sending()), CallSend(name, payload))
    {
      if !Ready() {
        return Some(NotReady());
      }
      if current.None? {
        return Some(NotStarted);
      }
      transmitted := transmitted + [DataMsg(current.value, name, payload)];
      return None;
    }

    /** The body of the waiting loop of `_receive`, for the iteration that was current on entry. */
    method Receive(iter: nat, name: string) returns (look: Look)
      ensures Ready() || (iter in received && name in received[iter]) ==>
                look == LookFor(Value(), iter, name, peerTerminated)
      ensures !Ready() && !(iter in received && name in received[iter]) ==>
                look == Failed(if !connected then NotConnected else Terminated)
    {
      if !(iter !in received || name !in received[iter]) {
        return Found(received[iter][name]);
      }
      if !Ready() {
        return Failed(NotReady());
      }
      if current.None? {
        return Failed(NotStarted);
      }
      if iter != current.value {
        return Failed(IterChanged);
      }
      if peerCommit.Some? && iter <= peerCommit.value {
        return Failed(PeerCommitted);
      }
      if peerTerminated {
        return Failed(PeerTerminated);
      }
      return Waiting;
    }
  }

  // ---------------------------------------------------------------- what a peer transmits

  /** The iteration a log leaves open, and the last one it commits. */
  function Open(log: seq<Message>): Option<nat> {
    if log == [] then None
    else match log[|log| - 1]
      case StartMsg(iter) => Some(iter)
      case DataMsg(_, _, _) => Open(log[..|log| - 1])
      case CommitMsg(_) => None
  }

  function LastCommit(log: seq<Message>): Option<nat> {
    if log == [] then None
    else match log[|log| - 1]
      case StartMsg(_) => LastCommit(log[..|log| - 1])
      case DataMsg(_, _, _) => LastCommit(log[..|log| - 1])
      case CommitMsg(iter) => Some(iter)
  }

  function After(commit: Option<nat>): nat {
    if commit.Some? then commit.value + 1 else 0
  }

  /** `m` may follow `log`: iterations are started, filled and committed one after the other. */
  ghost predicate Follows(log: seq<Message>, m: Message) {
    match m
    case StartMsg(iter) => Open(log).None? && iter == After(LastCommit(log))
    case DataMsg(iter, _, _) => Open(log) == Some(iter)
    case CommitMsg(iter) => Open(log) == Some(iter)
  }

  ghost predicate InTurn(log: seq<Message>) {
    forall i :: 0 <= i < |log| ==> Follows(log[..i], log[i])
  }

  /** Within an iteration no name is sent with two payloads. */
  ghost predicate OnePayload(log: seq<Message>) {
    forall m, m' :: m in log && m' in log && m.DataMsg? && m'.DataMsg? && m.iter == m'.iter && m.name == m'.name ==>
      m == m'
  }

  datatype Call = CallStart | CallSend(name: string, payload: Payload) | CallCommit

  /** The sending half of a bridge: its iteration counters and everything it has transmitted. */
  datatype Sender = Sender(current: Option<nat>, next: nat, log: seq<Message>)

  function Call1(s: Sender, c: Call): Sender {
    match c
    case CallStart =>
      if s.current.Some? then s else Sender(Some(s.next), s.next + 1, s.log + [StartMsg(s.next)])
    case CallSend(name, payload) =>
      if s.current.None? then s else s.(log := s.log + [DataMsg(s.current.value, name, payload)])
    case CallCommit =>
      if s.current.None? then s else Sender(None, s.next, s.log + [CommitMsg(s.current.value)])
  }

  function Calls(cs: seq<Call>): Sender {
    if cs == [] then Sender(None, 0, []) else Call1(Calls(cs[..|cs| - 1]), cs[|cs| - 1])
  }

  lemma FollowsInTurn(log: seq<Message>, m: Message)
    requires InTurn(log) && Follows(log, m)
    ensures InTurn(log + [m])
  {
    var all := log + [m];
    forall i | 0 <= i < |all| ensures Follows(all[..i], all[i]) {
      assert all[..i] == log[..i];
    }
  }

  /** Whatever the application calls, in whatever order, a bridge transmits its iterations in turn. */
  lemma {:induction false} BridgeTransmitsInTurn(cs: seq<Call>)
    ensures InTurn(Calls(cs).log)
    ensures Open(Calls(cs).log) == Calls(cs).current
    ensures Calls(cs).next == After(LastCommit(Calls(cs).log)) + if Calls(cs).current.Some? then 1 else 0
    ensures Calls(cs).current.Some? ==> Calls(cs).current.value + 1 == Calls(cs).next
  {
    if cs != [] {
      var before, after := Calls(cs[..|cs| - 1]), Calls(cs);
      BridgeTransmitsInTurn(cs[..|cs| - 1]);
      if after.log != before.log {
        var m := after.log[|after.log| - 1];
        assert after.log == before.log + [m] && after.log[..|before.log|] == before.log;
        FollowsInTurn(before.log, m);
      }
    }
  }

  // ---------------------------------------------------------------- the reference: what should have been received

  /** The data of `log` for iterations from `iter` on. */
  function Stored(log: seq<Message>, iter: nat): Store {
    if log == [] then map[]
    else
      var front, m := log[..|log| - 1], log[|log| - 1];
      if m.DataMsg? && m.iter >= iter then Put(Stored(front, iter), m.iter, m.name, m.payload) else Stored(front, iter)
  }

  /** The state of a bridge that has received each message of `log` exactly once, before doing anything itself. */
  function Expected(log: seq<Message>, current: Option<nat>, next: nat): State {
    State(current, next, Open(log), LastCommit(log), Stored(log, if current.Some? then current.value else next))
  }

  lemma {:induction false} StoredKeys(log: seq<Message>, iter: nat)
    ensures forall k :: k in Stored(log, iter) ==> iter <= k
  {
    if log != [] {
      StoredKeys(log[..|log| - 1], iter);
    }
  }

  /** Dropping the oldest iteration's data is as if it had never been kept. */
  lemma {:induction false} DropOldest(log: seq<Message>, iter: nat)
    ensures Stored(log, iter) - {iter} == Stored(log, iter + 1)
  {
    if log != [] {
      var front, m := log[..|log| - 1], log[|log| - 1];
      DropOldest(front, iter);
      if m.DataMsg? && m.iter > iter {
        var before := Stored(front, iter);
        assert (m.iter in before) == (m.iter in before - {iter});
        assert Put(before, m.iter, m.name, m.payload) - {iter} == Put(before - {iter}, m.iter, m.name, m.payload);
      } else if m.DataMsg? && m.iter == iter {
        assert Put(Stored(front, iter), m.iter, m.name, m.payload) - {iter} == Stored(front, iter) - {iter};
      }
    }
  }

  /** What is stored is what was sent. */
  lemma {:induction false} StoredIsSent(log: seq<Message>, iter: nat, k: nat, name: string, payload: Payload)
    requires OnePayload(log)
    ensures Has(Stored(log, iter), k, name, payload) <==> k >= iter && DataMsg(k, name, payload) in log
  {
    if log != [] {
      var front, m := log[..|log| - 1], log[|log| - 1];
      assert log == front + [m];
      assert OnePayload(front);
      StoredIsSent(front, iter, k, name, payload);
      if m.DataMsg? && m.iter == k && m.name == name {
        assert m in log;
        assert DataMsg(k, name, payload) in log ==> m == DataMsg(k, name, payload);
      }
    }
  }

  /** The message belongs to an iteration the log has committed, or to the one it leaves open. */
  ghost predicate Settled(log: seq<Message>, m: Message) {
    m.iter < After(LastCommit(log)) || (Open(log) == Some(m.iter) && !m.CommitMsg?)
  }

  ghost predicate OpenNext(log: seq<Message>) {
    Open(log).Some? ==> Open(log).value == After(LastCommit(log))
  }

  ghost predicate AllSettled(log: seq<Message>) {
    OpenNext(log) && forall m :: m in log ==> Settled(log, m)
  }

  lemma SettledStep(front: seq<Message>, m: Message)
    requires AllSettled(front) && Follows(front, m)
    ensures AllSettled(front + [m])
  {
    assert (front + [m])[..|front|] == front;
    forall m' | m' in front + [m] ensures Settled(front + [m], m') {
      assert m' in front || m' == m;
    }
  }

  lemma PrefixInTurn(log: seq<Message>, n: nat)
    requires n <= |log|
    ensures InTurn(log) ==> InTurn(log[..n])
    ensures OnePayload(log) ==> OnePayload(log[..n])
  {
    if InTurn(log) {
      forall j | 0 <= j < n ensures Follows(log[..n][..j], log[..n][j]) {
        assert log[..n][..j] == log[..j] && Follows(log[..j], log[j]);
      }
    }
    forall m | m in log[..n] ensures m in log {
    }
  }

  /** Iterations in turn: every message of the log is settled. */
  lemma {:induction false} PastMessages(log: seq<Message>)
    requires InTurn(log)
    ensures AllSettled(log)
  {
    if log != [] {
      var front, m := log[..|log| - 1], log[|log| - 1];
      assert log == front + [m];
      PrefixInTurn(log, |front|);
      InTurnAt(log, |front|);
      hide *;
      PastMessages(front);
      SettledStep(front, m);
    }
  }

  /** A repeated message changes nothing. */
  lemma RepeatIsIgnored(log: seq<Message>, i: nat, current: Option<nat>, next: nat)
    requires InTurn(log) && OnePayload(log) && i < |log|
    ensures Handle(Expected(log, current, next), log[i]) == Expected(log, current, next)
  {
    PastMessages(log);
    assert Settled(log, log[i]);
    var s, m := Expected(log, current, next), log[i];
    if m.DataMsg? && s.peerStart == Some(m.iter) && m.iter >= Iter(s) {
      StoredIsSent(log, Iter(s), m.iter, m.name, m.payload);
      assert m == DataMsg(m.iter, m.name, m.payload);
      var inner := s.received[m.iter];
      assert inner[m.name := m.payload] == inner;
      assert s.received[m.iter := inner] == s.received;
    }
  }

  /** A new message is taken in. */
  lemma NextIsTaken(log: seq<Message>, m: Message, current: Option<nat>, next: nat)
    requires InTurn(log) && Follows(log, m)
    ensures Handle(Expected(log, current, next), m) == Expected(log + [m], current, next)
  {
    assert (log + [m])[..|log|] == log;
    PastMessages(log);
  }

  lemma CommitDrops(log: seq<Message>, current: nat)
    ensures CommitIter(Expected(log, Some(current), current + 1)) == Expected(log, None, current + 1)
  {
    DropOldest(log, current);
  }

  // ---------------------------------------------------------------- every interleaving with local calls

  datatype Event = Deliver(index: nat) | LocalStart | LocalCommit

  /** The number of messages of the log that the events have delivered at least once. */
  function Seen(events: seq<Event>): nat {
    if events == [] then 0
    else
      var n := Seen(events[..|events| - 1]);
      match events[|events| - 1]
      case Deliver(i) => if i == n then n + 1 else n
      case LocalStart => n
      case LocalCommit => n
  }

  /** First deliveries happen in order; repetitions at any time. */
  ghost predicate FirstsInOrder(log: seq<Message>, events: seq<Event>) {
    events != [] ==>
      && FirstsInOrder(log, events[..|events| - 1])
      && (events[|events| - 1].Deliver? ==>
            events[|events| - 1].index <= Seen(events[..|events| - 1]) && events[|events| - 1].index < |log|)
  }

  function Run(log: seq<Message>, events: seq<Event>): State {
    if events == [] then INIT
    else
      var s := Run(log, events[..|events| - 1]);
      match events[|events| - 1]
      case Deliver(i) => if i < |log| then Handle(s, log[i]) else s
      case LocalStart => StartIter(s)
      case LocalCommit => CommitIter(s)
  }

  lemma {:induction false} SeenWithinLog(log: seq<Message>, events: seq<Event>)
    requires FirstsInOrder(log, events)
    ensures Seen(events) <= |log|
  {
    if events != [] {
      SeenWithinLog(log, events[..|events| - 1]);
    }
  }

  /** Exactly once: whatever is repeated and however deliveries interleave with local starts and commits, the state is
      the one of a bridge to which each message was delivered once. */
  lemma {:induction false} ExactlyOnce(log: seq<Message>, events: seq<Event>)
    requires InTurn(log) && OnePayload(log) && FirstsInOrder(log, events)
    ensures Seen(events) <= |log|
    ensures var s := Run(log, events);
            && s == Expected(log[..Seen(events)], s.current, s.next)
            && (s.current.Some? ==> s.next == s.current.value + 1)
  {
    SeenWithinLog(log, events);
    if events != [] {
      var front, e := events[..|events| - 1], events[|events| - 1];
      ExactlyOnce(log, front);
      var s := Run(log, front);
      var done := log[..Seen(front)];
      PrefixInTurn(log, Seen(front));
      hide InTurn, OnePayload, Expected, Handle;
      match e
      case Deliver(i) =>
        HandleKeepsLocal(s, log[i]);
        DeliverOnce(log, Seen(front), i, s.current, s.next);
      case LocalStart =>
        StartKeepsExpected(done, s.current, s.next);
      case LocalCommit =>
        if s.current.Some? {
          CommitDrops(done, s.current.value);
          CommitEnds(s);
        }
    }
  }

  /** A delivery is a repetition or the next message. */
  lemma DeliverOnce(log: seq<Message>, n: nat, i: nat, current: Option<nat>, next: nat)
    requires InTurn(log) && OnePayload(log) && i <= n <= |log| && i < |log|
    ensures Handle(Expected(log[..n], current, next), log[i])
         == Expected(log[..if i == n then n + 1 else n], current, next)
  {
    PrefixInTurn(log, n);
    hide *;
    if i < n {
      assert log[..n][i] == log[i];
      RepeatIsIgnored(log[..n], i, current, next);
    } else {
      TakeNext(log, n, current, next);
    }
  }

  lemma TakeNext(log: seq<Message>, n: nat, current: Option<nat>, next: nat)
    requires InTurn(log) && n < |log|
    ensures Handle(Expected(log[..n], current, next), log[n]) == Expected(log[..n + 1], current, next)
  {
    PrefixInTurn(log, n);
    InTurnAt(log, n);
    assert log[..n + 1] == log[..n] + [log[n]];
    hide *;
    NextIsTaken(log[..n], log[n], current, next);
  }

  lemma InTurnAt(log: seq<Message>, i: nat)
    requires InTurn(log) && i < |log|
    ensures Follows(log[..i], log[i])
  {
  }

  lemma HandleKeepsLocal(s: State, m: Message)
    ensures Handle(s, m).current == s.current && Handle(s, m).next == s.next
  {
  }

  lemma StartKeepsExpected(log: seq<Message>, current: Option<nat>, next: nat)
    ensures var s := StartIter(Expected(log, current, next));
            && s == Expected(log, s.current, s.next)
            && (current.None? ==> s.current == Some(next) && s.next == next + 1)
            && (current.Some? ==> s.current == current && s.next == next)
  {
  }

  lemma CommitEnds(s: State)
    requires s.current.Some?
    ensures CommitIter(s).current.None? && CommitIter(s).next == s.next
  {
  }

  /** Data of an iteration this side has committed never comes back. */
  lemma CommittedDataStaysAway(log: seq<Message>, events: seq<Event>)
    requires InTurn(log) && OnePayload(log) && FirstsInOrder(log, events)
    ensures forall k :: k in Run(log, events).received ==> k >= Iter(Run(log, events))
  {
    ExactlyOnce(log, events);
    StoredKeys(log[..Seen(events)], Iter(Run(log, events)));
  }

  /** In a log in turn, nothing of an iteration follows its commit. */
  lemma NothingAfterCommit(log: seq<Message>, n: nat, m: Message)
    requires InTurn(log) && n <= |log| && m in log && m.iter < After(LastCommit(log[..n]))
    ensures m in log[..n]
  {
    var i: nat :| i < |log| && log[i] == m;
    if i >= n {
      assert log[..i][..n] == log[..n];
      PrefixInTurn(log, i);
      InTurnAt(log, i);
      FollowerIter(log[..i], m);
      CommitsGrow(log[..i], n);
      assert false;
    }
    assert log[..n][i] == m;
  }

  lemma FollowerIter(log: seq<Message>, m: Message)
    requires InTurn(log) && Follows(log, m)
    ensures m.iter == After(LastCommit(log))
  {
    OpenIsNext(log);
  }

  lemma {:induction false} CommitsGrow(log: seq<Message>, n: nat)
    requires InTurn(log) && n <= |log|
    ensures After(LastCommit(log[..n])) <= After(LastCommit(log))
  {
    if n < |log| {
      var front, m := log[..|log| - 1], log[|log| - 1];
      assert log == front + [m] && front[..n] == log[..n];
      PrefixInTurn(log, |front|);
      InTurnAt(log, |front|);
      hide *;
      CommitsGrow(front, n);
      PastMessages(front);
      CommitGrows(front, m);
    } else {
      assert log[..n] == log;
    }
  }

  lemma CommitGrows(log: seq<Message>, m: Message)
    requires AllSettled(log) && Follows(log, m)
    ensures After(LastCommit(log)) <= After(LastCommit(log + [m]))
  {
    assert (log + [m])[..|log|] == log;
  }

  lemma {:induction false} CommittedMeansCommitted(log: seq<Message>, k: nat)
    requires InTurn(log)
    ensures k < After(LastCommit(log)) <==> CommitMsg(k) in log
  {
    if log != [] {
      var front, m := log[..|log| - 1], log[|log| - 1];
      assert log == front + [m];
      PrefixInTurn(log, |front|);
      InTurnAt(log, |front|);
      assert CommitMsg(k) in log <==> CommitMsg(k) in front || m == CommitMsg(k);
      hide *;
      CommittedMeansCommitted(front, k);
      PastMessages(front);
      CommitStep(front, m, k);
    }
  }

  lemma CommitStep(log: seq<Message>, m: Message, k: nat)
    requires Follows(log, m) && AllSettled(log)
    ensures k < After(LastCommit(log + [m])) <==> k < After(LastCommit(log)) || m == CommitMsg(k)
  {
    assert (log + [m])[..|log|] == log;
  }

  lemma OpenIsNext(log: seq<Message>)
    requires InTurn(log)
    ensures Open(log).Some? ==> Open(log).value == After(LastCommit(log))
  {
    PastMessages(log);
  }

  ghost predicate NonePresent(log: seq<Message>, k: nat, name: string) {
    forall p :: DataMsg(k, name, p) !in log
  }

  /** What a receiver for iteration `k` is told, in terms of what has arrived.  In iteration `k` it gets what the peer
      sent under that name; it is told that the peer committed without sending it exactly when the peer's commit has
      arrived and the peer never sends that name; that the peer has terminated, or to wait, exactly when neither the
      name nor the commit has arrived.  Out of iteration `k` it gets what has arrived early, or learns why there is
      nothing. */
  lemma ReceiveIsExact(log: seq<Message>, events: seq<Event>, k: nat, name: string, peerTerminated: bool)
    requires InTurn(log) && OnePayload(log) && FirstsInOrder(log, events)
    ensures Seen(events) <= |log|
    ensures var s := Run(log, events);
            var look, arrived := LookFor(s, k, name, peerTerminated), log[..Seen(events)];
            var open := NonePresent(arrived, k, name) && CommitMsg(k) !in arrived;
            && (s.current == Some(k) ==>
                  && (forall p :: look == Found(p) <==> DataMsg(k, name, p) in arrived)
                  && (look == Failed(PeerCommitted) <==> CommitMsg(k) in arrived && NonePresent(log, k, name))
                  && (look == Failed(PeerTerminated) <==> open && peerTerminated)
                  && (look == Waiting <==> open && !peerTerminated)
                  && look != Failed(NotStarted) && look != Failed(IterChanged))
            && (s.current != Some(k) ==>
                  && (forall p :: look == Found(p) <==> DataMsg(k, name, p) in arrived && k >= Iter(s))
                  && (look == Failed(NotStarted) <==>
                        s.current.None? && (NonePresent(arrived, k, name) || k < Iter(s)))
                  && (look == Failed(IterChanged) <==>
                        s.current.Some? && (NonePresent(arrived, k, name) || k < Iter(s)))
                  && (look.Found? || look == Failed(NotStarted) || look == Failed(IterChanged)))
  {
    ExactlyOnce(log, events);
    var s, n := Run(log, events), Seen(events);
    var arrived := log[..n];
    PrefixInTurn(log, n);
    StoredHere(log, events, k, name);
    assert Committed(s, k) <==> k < After(LastCommit(arrived));
    CommittedMeansCommitted(arrived, k);
    if Committed(s, k) && s.current == Some(k) {
      forall p | DataMsg(k, name, p) in log ensures DataMsg(k, name, p) in arrived {
        NothingAfterCommit(log, n, DataMsg(k, name, p));
      }
    }
    forall p | DataMsg(k, name, p) in arrived ensures DataMsg(k, name, p) in log {
    }
    hide InTurn, OnePayload, Expected, Stored, FirstsInOrder, Run, Seen;
  }

  /** What is stored for iteration `k` is what has arrived for it, unless it is over. */
  lemma StoredHere(log: seq<Message>, events: seq<Event>, k: nat, name: string)
    requires InTurn(log) && OnePayload(log) && FirstsInOrder(log, events)
    ensures Seen(events) <= |log|
    ensures var s := Run(log, events);
            && (forall p :: Has(s.received, k, name, p) <==>
                              k >= Iter(s) && DataMsg(k, name, p) in log[..Seen(events)])
            && (Present(s, k, name) <==> k >= Iter(s) && !NonePresent(log[..Seen(events)], k, name))
  {
    ExactlyOnce(log, events);
    var s, arrived := Run(log, events), log[..Seen(events)];
    PrefixInTurn(log, Seen(events));
    forall p ensures Has(s.received, k, name, p) <==> k >= Iter(s) && DataMsg(k, name, p) in arrived {
      StoredIsSent(arrived, Iter(s), k, name, p);
    }
    hide InTurn, OnePayload, Expected, Stored, FirstsInOrder, Run, Seen;
    if Present(s, k, name) {
      assert Has(s.received, k, name, s.received[k][name]);
    }
  }

  ghost predicate Present(s: State, k: nat, name: string) {
    k in s.received && name in s.received[k]
  }

  /** Without repetitions nothing is asked of the payloads. */
  lemma {:induction false} DeliverAll(log: seq<Message>, n: nat) returns (events: seq<Event>)
    requires InTurn(log) && n <= |log|
    ensures FirstsInOrder(log, events) && Seen(events) == n && Run(log, events) == Expected(log[..n], None, 0)
  {
    events := [];
    if n > 0 {
      var before := DeliverAll(log, n - 1);
      events := before + [Deliver(n - 1)];
      assert events[..|before|] == before;
      PrefixInTurn(log, n - 1);
      InTurnAt(log, n - 1);
      NextIsTaken(log[..n - 1], log[n - 1], None, 0);
      assert log[..n] == log[..n - 1] + [log[n - 1]];
    }
  }

  lemma LastStored(log: seq<Message>, m: Message)
    requires log != [] && log[|log| - 1] == m && m.DataMsg?
    ensures Has(Stored(log, 0), m.iter, m.name, m.payload)
  {
  }

  /** Exactly once needs one payload per iteration and name: for any log in turn without it, delivering an old payload
      once more puts it back in place of the newer one. */
  lemma OnePayloadIsNeeded(log: seq<Message>) returns (events: seq<Event>)
    requires InTurn(log) && !OnePayload(log)
    ensures FirstsInOrder(log, events) && Seen(events) <= |log|
    ensures Run(log, events).current.None? && Run(log, events).next == 0
    ensures Run(log, events) != Expected(log[..Seen(events)], None, 0)
  {
    var i, j := Clash(log);
    events := OldPayloadReturns(log, i, j);
  }

  /** The earlier and the later of two clashing messages. */
  lemma Clash(log: seq<Message>) returns (i: nat, j: nat)
    requires !OnePayload(log)
    ensures i < j < |log| && log[i].DataMsg? && log[j].DataMsg?
    ensures log[i].iter == log[j].iter && log[i].name == log[j].name && log[i].payload != log[j].payload
  {
    var m, m' :| m in log && m' in log && m.DataMsg? && m'.DataMsg? && m.iter == m'.iter && m.name == m'.name
                 && m != m';
    i :| i < |log| && log[i] == m;
    j :| j < |log| && log[j] == m';
    if i > j {
      i, j := j, i;
    }
  }

  lemma OldPayloadReturns(log: seq<Message>, i: nat, j: nat) returns (events: seq<Event>)
    requires InTurn(log) && i < j < |log| && log[i].DataMsg? && log[j].DataMsg?
    requires log[i].iter == log[j].iter && log[i].name == log[j].name && log[i].payload != log[j].payload
    ensures FirstsInOrder(log, events) && Seen(events) <= |log|
    ensures Run(log, events).current.None? && Run(log, events).next == 0
    ensures Run(log, events) != Expected(log[..Seen(events)], None, 0)
  {
    var before := DeliverAll(log, j + 1);
    events := before + [Deliver(i)];
    InTurnAt(log, j);
    assert log[..j + 1][..j] == log[..j];
    assert Open(log[..j + 1]) == Some(log[i].iter);
    var upTo := log[..j + 1];
    assert upTo != [] && upTo[|upTo| - 1] == log[j];
    hide *;
    RepeatOne(log, before, i);
    StaleReplaces(upTo, log[i]);
    HandleKeepsLocal(Expected(log[..j + 1], None, 0), log[i]);
    ExpectedLocals(log[..j + 1], None, 0);
  }

  lemma RepeatOne(log: seq<Message>, events: seq<Event>, i: nat)
    requires FirstsInOrder(log, events) && i < Seen(events) <= |log|
    ensures FirstsInOrder(log, events + [Deliver(i)]) && Seen(events + [Deliver(i)]) == Seen(events)
    ensures Run(log, events + [Deliver(i)]) == Handle(Run(log, events), log[i])
  {
    assert (events + [Deliver(i)])[..|events|] == events;
  }

  lemma ExpectedLocals(log: seq<Message>, current: Option<nat>, next: nat)
    ensures Expected(log, current, next).current == current && Expected(log, current, next).next == next
  {
  }

  /** The newest message of the log, and an older one of the same name with another payload. */
  lemma StaleReplaces(log: seq<Message>, old': Message)
    requires log != [] && log[|log| - 1].DataMsg? && Open(log) == Some(old'.iter) && old'.DataMsg?
    requires log[|log| - 1].iter == old'.iter && log[|log| - 1].name == old'.name
    requires log[|log| - 1].payload != old'.payload
    ensures Handle(Expected(log, None, 0), old') != Expected(log, None, 0)
  {
    var m := log[|log| - 1];
    LastStored(log, m);
    var s := Expected(log, None, 0);
    assert Has(Handle(s, old').received, m.iter, m.name, old'.payload);
    assert !Has(s.received, m.iter, m.name, old'.payload);
  }
}
