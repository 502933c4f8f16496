/** The connect and close handshake of two channels over calls that may be lost or repeated. */
module Channel {
  import opened Wrappers

  datatype State =
    | IDLE | CONNECTING_UNCONNECTED | CONNECTED_UNCONNECTED | CONNECTING_CONNECTED | READY | CONNECTED_CLOSED
    | CLOSING_CONNECTED | CLOSING_CLOSED | CLOSED_CONNECTED | DONE | ERROR

  datatype Event = CONNECTED | CLOSING | CLOSED | PEER_CONNECTED | PEER_CLOSED | FAILED

  datatype CallType = CONNECT | CLOSE | HEARTBEAT

  datatype Code = OK | EXCEPTION | PEER_IS_CLOSED | UNCONNECTED

  /** `_next_table`; an event without an entry changes nothing. */
  function NextState(s: State, e: Event): State {
    if e == FAILED then (if s == IDLE || s == DONE then s else ERROR)
    else
      match (s, e)
      case (CONNECTING_UNCONNECTED, CONNECTED) => CONNECTED_UNCONNECTED
      case (CONNECTING_UNCONNECTED, PEER_CONNECTED) => CONNECTING_CONNECTED
      case (CONNECTED_UNCONNECTED, PEER_CONNECTED) => READY
      case (CONNECTING_CONNECTED, CONNECTED) => READY
      case (READY, CLOSING) => CLOSING_CONNECTED
      case (READY, PEER_CLOSED) => CONNECTED_CLOSED
      case (CONNECTED_CLOSED, CLOSING) => CLOSING_CLOSED
      case (CONNECTED_CLOSED, CLOSED) => DONE
      case (CLOSING_CONNECTED, CLOSED) => CLOSED_CONNECTED
      case (CLOSING_CONNECTED, PEER_CLOSED) => CLOSING_CLOSED
      case (CLOSING_CLOSED, CLOSED) => DONE
      case (CLOSED_CONNECTED, PEER_CLOSED) => DONE
      case _ => s
  }

  predicate Connecting(s: State) { s == CONNECTING_UNCONNECTED || s == CONNECTING_CONNECTED }

  predicate Closing(s: State) { s == CLOSING_CONNECTED || s == CLOSING_CLOSED }

  predicate PeerUnconnected(s: State) { s == CONNECTING_UNCONNECTED || s == CONNECTED_UNCONNECTED }

  predicate PeerClosed(s: State) { s == CONNECTED_CLOSED || s == CLOSING_CLOSED }

  /** One channel; timestamps are 0 until set.  `call` is the call its state thread is waiting for, `wasReady` says that
      it has been READY. */
  datatype Side = Side(state: State, connectedAt: nat, closedAt: nat, peerConnectedAt: nat, peerClosedAt: nat,
                       call: Option<CallType>, wasReady: bool) {

    function Emit(e: Event): Side {
      this.(state := NextState(state, e), wasReady := wasReady || NextState(state, e) == READY)
    }

    function ConnectedAt(): nat {
      if state == IDLE then 0 else Max(connectedAt, peerConnectedAt)
    }

    function ClosedAt(): nat {
      if state != DONE then 0 else Max(closedAt, peerClosedAt)
    }
  }

  function Max(a: nat, b: nat): (m: nat)
    ensures m >= a && m >= b && (m == a || m == b)
  {
    if a > b then a else b
  }

  datatype Response = Response(code: Code, timestamp: nat)

  const CLEAN := Side(IDLE, 0, 0, 0, 0, None, false)

  /** `_call_handler`, for a peer that passes the token and identifier checks. */
  function Handle(s: Side, c: CallType, now: nat): (Side, Response) {
    if s.state == ERROR then (s, Response(EXCEPTION, 0))
    else
      match c
      case CONNECT =>
        if PeerClosed(s.state) then (s, Response(PEER_IS_CLOSED, 0))
        else
          var s' := s.Emit(PEER_CONNECTED);
          var at := if s.peerConnectedAt == 0 then now else s.peerConnectedAt;
          (s'.(peerConnectedAt := at), Response(OK, at))
      case HEARTBEAT =>
        if PeerUnconnected(s.state) then (s, Response(UNCONNECTED, 0)) else (s, Response(OK, now))
      case CLOSE =>
        if PeerUnconnected(s.state) then (s, Response(UNCONNECTED, 0))
        else
          var s' := s.Emit(PEER_CLOSED);
          var at := if s.peerClosedAt == 0 then now else s.peerClosedAt;
          (s'.(peerClosedAt := at), Response(OK, at))
  }

  /** The part of `_call_locked` after the call has returned, and the events its caller emits after it. */
  function Returned(s: Side, c: CallType, r: Response): Side {
    if r.code != OK then s.(call := None).Emit(FAILED)
    else
      match c
      case CONNECT => s.(call := None, connectedAt := r.timestamp).Emit(CONNECTED).Emit(CONNECTED)
      case CLOSE => s.(call := None, closedAt := r.timestamp).Emit(CLOSED).Emit(CLOSED)
      case HEARTBEAT => s.(call := None)
  }

  /** What the state thread calls next. */
  function NextCall(s: State): CallType {
    if Connecting(s) then CONNECT else if Closing(s) then CLOSE else HEARTBEAT
  }

  // ---------------------------------------------------------------- the channel object

  class ChannelObject {
    var state: State
    var connectedAt: nat
    var closedAt: nat
    var peerConnectedAt: nat
    var peerClosedAt: nat
    var call: Option<CallType>
    var wasReady: bool

    function Value(): Side
      reads this
    {
      Side(state, connectedAt, closedAt, peerConnectedAt, peerClosedAt, call, wasReady)
    }

    constructor ()
      ensures Value() == CLEAN
    {
      state, connectedAt, closedAt, peerConnectedAt, peerClosedAt, call, wasReady := IDLE, 0, 0, 0, 0, None, false;
    }

    method EmitEvent(e: Event)
      modifies this`state, this`wasReady
      ensures Value() == old(Value()).Emit(e)
    {
      var next := NextState(state, e);
      if state != next {
        state := next;
      }
      if state == READY {
        wasReady := true;
      }
    }

    method CallHandler(c: CallType, now: nat) returns (r: Response)
      modifies this
      ensures (Value(), r) == Handle(old(Value()), c, now)
    {
      if state == ERROR {
        return Response(EXCEPTION, 0);
      }
      if c == CONNECT {
        if PeerClosed(state) {
          return Response(PEER_IS_CLOSED, 0);
        }
        EmitEvent(PEER_CONNECTED);
        if peerConnectedAt == 0 {
          peerConnectedAt := now;
        }
        return Response(OK, peerConnectedAt);
      }
      if PeerUnconnected(state) {
        return Response(UNCONNECTED, 0);
      }
      if c == HEARTBEAT {
        return Response(OK, now);
      }
      EmitEvent(PEER_CLOSED);
      if peerClosedAt == 0 {
        peerClosedAt := now;
      }
      return Response(OK, peerClosedAt);
    }

    method CallReturned(c: CallType, r: Response)
      modifies this
      ensures Value() == Returned(old(Value()), c, r)
    {
      call := None;
      if r.code != OK {
        EmitEvent(FAILED);
      } else if c == CONNECT {
        connectedAt := r.timestamp;
        EmitEvent(CONNECTED);
        EmitEvent(CONNECTED);
      } else if c == CLOSE {
        closedAt := r.timestamp;
        EmitEvent(CLOSED);
        EmitEvent(CLOSED);
      }
    }
  }

  // ---------------------------------------------------------------- two channels

  datatype Who = Left | Right

  function Other(w: Who): Who { if w == Left then Right else Left }

  /** `sent` and `replies` are all calls ever made and all answers ever given: each may arrive late, more than once, or
      never. */
  datatype System = System(left: Side, right: Side, sent: set<(Who, CallType)>,
                           replies: set<(Who, CallType, Response)>) {

    function Of(w: Who): Side { if w == Left then left else right }

    function With(w: Who, s: Side): System { if w == Left then this.(left := s) else this.(right := s) }
  }

  datatype Action =
    | Connect(who: Who)
    | Close(who: Who)
    | Fail(who: Who)
    | Call(who: Who)
    | Arrive(from: Who, call: CallType, now: nat)
    | Return(who: Who, response: Response)
    | Lose(who: Who)

  predicate Enabled(s: System, a: Action) {
    match a
    case Connect(w) => s.Of(w).state == IDLE
    case Close(w) => s.Of(w).state != IDLE && s.Of(w).state != ERROR
    case Fail(w) => s.Of(w).state != IDLE
    case Call(w) => s.Of(w).call.None? && s.Of(w).state !in {IDLE, DONE, ERROR}
    case Arrive(from, c, now) => (from, c) in s.sent && s.Of(Other(from)).state != IDLE && now > 0
    case Return(w, r) => s.Of(w).call.Some? && (w, s.Of(w).call.value, r) in s.replies
    case Lose(w) => s.Of(w).call.Some?
  }

  function Step(s: System, a: Action): System
    requires Enabled(s, a)
  {
    match a
    case Connect(w) => s.With(w, s.Of(w).(state := CONNECTING_UNCONNECTED))
    case Close(w) =>
      var e := if s.Of(w).state in {CONNECTING_UNCONNECTED, CONNECTED_UNCONNECTED, CONNECTING_CONNECTED} then FAILED
               else CLOSING;
      s.With(w, s.Of(w).Emit(e))
    case Fail(w) => s.With(w, s.Of(w).Emit(FAILED))
    case Call(w) =>
      var c := NextCall(s.Of(w).state);
      s.With(w, s.Of(w).(call := Some(c))).(sent := s.sent + {(w, c)})
    case Arrive(from, c, now) =>
      var (side, r) := Handle(s.Of(Other(from)), c, now);
      s.With(Other(from), side).(replies := s.replies + {(from, c, r)})
    case Return(w, r) => s.With(w, Returned(s.Of(w), s.Of(w).call.value, r))
    case Lose(w) => s.With(w, s.Of(w).(call := None))
  }

  /** The state after a run; steps that are not possible are skipped. */
  function After(actions: seq<Action>): System {
    if actions == [] then System(CLEAN, CLEAN, {}, {})
    else
      var s := After(actions[..|actions| - 1]);
      if Enabled(s, actions[|actions| - 1]) then Step(s, actions[|actions| - 1]) else s
  }

  // ---------------------------------------------------------------- what every run keeps

  ghost predicate Connected(s: Side) {
    s.wasReady || s.state == CONNECTED_UNCONNECTED
  }

  ghost predicate PeerConnected(s: Side) {
    s.wasReady || s.state == CONNECTING_CONNECTED
  }

  ghost predicate AfterReady(s: State) {
    s in {READY, CONNECTED_CLOSED, CLOSING_CONNECTED, CLOSING_CLOSED, CLOSED_CONNECTED, DONE}
  }

  ghost predicate AskedToClose(s: State) {
    s in {CLOSING_CONNECTED, CLOSING_CLOSED, CLOSED_CONNECTED, DONE, ERROR}
  }

  /** One channel by itself: the timestamps that its state promises. */
  ghost predicate SideOk(s: Side) {
    && (Connected(s) ==> s.connectedAt > 0)
    && (PeerConnected(s) ==> s.peerConnectedAt > 0)
    && (s.state in {CLOSED_CONNECTED, DONE} ==> s.closedAt > 0)
    && (s.state in {CONNECTED_CLOSED, CLOSING_CLOSED, DONE} ==> s.peerClosedAt > 0)
    && (AfterReady(s.state) ==> s.wasReady)
    && (s.wasReady ==> AfterReady(s.state) || s.state == ERROR)
    && (s.state == IDLE ==> s == CLEAN)
    && (s.call == Some(CLOSE) ==> AskedToClose(s.state))
  }

  /** An answer carries the time that the other side `o` keeps. */
  ghost predicate Tells(o: Side, c: CallType, r: Response) {
    r.code == OK ==>
      && (c == CONNECT ==> 0 < r.timestamp == o.peerConnectedAt)
      && (c == CLOSE ==> 0 < r.timestamp == o.peerClosedAt)
  }

  /** What `s` has been told by the other side `o`, and what is on its way to it. */
  ghost predicate ToldOk(w: Who, s: Side, o: Side, sent: set<(Who, CallType)>,
                         replies: set<(Who, CallType, Response)>) {
    && (s.connectedAt > 0 ==> s.connectedAt == o.peerConnectedAt)
    && (s.closedAt > 0 ==> s.closedAt == o.peerClosedAt)
    && (forall c, r :: (w, c, r) in replies ==> Tells(o, c, r))
    && ((w, CLOSE) in sent ==> AskedToClose(s.state))
    && (o.peerClosedAt > 0 ==> (w, CLOSE) in sent)
    && (forall c :: (w, c) in sent ==> s.state != IDLE)
    && (o.peerConnectedAt > 0 ==> s.state != IDLE)
  }

  ghost predicate Safe(s: System) {
    && SideOk(s.left) && SideOk(s.right)
    && ToldOk(Left, s.left, s.right, s.sent, s.replies) && ToldOk(Right, s.right, s.left, s.sent, s.replies)
  }

  /** Safety from the point of view of either side. */
  lemma SafeFrom(s: System, w: Who)
    ensures Safe(s) <==> && SideOk(s.Of(w)) && SideOk(s.Of(Other(w)))
                         && ToldOk(w, s.Of(w), s.Of(Other(w)), s.sent, s.replies)
                         && ToldOk(Other(w), s.Of(Other(w)), s.Of(w), s.sent, s.replies)
  {
    hide SideOk, ToldOk;
  }

  // ---------------------------------------------------------------- steps of one side

  lemma EmitKeepsSide(s: Side, e: Event)
    requires SideOk(s) && s.state != IDLE
    requires e == CONNECTED ==> s.connectedAt > 0
    requires e == CLOSED ==> s.closedAt > 0
    requires e == PEER_CONNECTED ==> s.peerConnectedAt > 0
    requires e == PEER_CLOSED ==> s.peerClosedAt > 0
    ensures SideOk(s.Emit(e)) && s.Emit(e).state != IDLE
    ensures AskedToClose(s.state) ==> AskedToClose(s.Emit(e).state)
  {
  }

  lemma HandleKeepsSide(s: Side, c: CallType, now: nat)
    requires SideOk(s) && s.state != IDLE && now > 0
    ensures var (s', r) := Handle(s, c, now);
            && SideOk(s') && s'.state != IDLE && (AskedToClose(s.state) ==> AskedToClose(s'.state)) && Tells(s', c, r)
            && s'.connectedAt == s.connectedAt && s'.closedAt == s.closedAt
            && (s.peerConnectedAt > 0 ==> s'.peerConnectedAt == s.peerConnectedAt)
            && (s.peerClosedAt > 0 ==> s'.peerClosedAt == s.peerClosedAt)
            && (s'.peerClosedAt > 0 ==> s.peerClosedAt > 0 || c == CLOSE)
  {
    if s.state != ERROR {
      if c == CONNECT {
        EmitKeepsSide(s.(peerConnectedAt := if s.peerConnectedAt == 0 then now else s.peerConnectedAt), PEER_CONNECTED);
      } else if c == CLOSE {
        EmitKeepsSide(s.(peerClosedAt := if s.peerClosedAt == 0 then now else s.peerClosedAt), PEER_CLOSED);
      }
    }
    hide SideOk;
  }

  lemma ReturnedKeepsSide(s: Side, o: Side, c: CallType, r: Response)
    requires SideOk(s) && s.call == Some(c) && Tells(o, c, r)
    requires s.connectedAt > 0 ==> s.connectedAt == o.peerConnectedAt
    requires s.closedAt > 0 ==> s.closedAt == o.peerClosedAt
    ensures var s' := Returned(s, c, r);
            && SideOk(s') && s'.state != IDLE && (AskedToClose(s.state) ==> AskedToClose(s'.state))
            && (s'.connectedAt > 0 ==> s'.connectedAt == o.peerConnectedAt)
            && (s'.closedAt > 0 ==> s'.closedAt == o.peerClosedAt)
            && s'.peerConnectedAt == s.peerConnectedAt && s'.peerClosedAt == s.peerClosedAt
  {
    if r.code != OK {
      EmitKeepsSide(s.(call := None), FAILED);
    } else if c == CONNECT {
      var s' := s.(call := None, connectedAt := r.timestamp);
      EmitKeepsSide(s', CONNECTED);
      EmitKeepsSide(s'.Emit(CONNECTED), CONNECTED);
    } else if c == CLOSE {
      var s' := s.(call := None, closedAt := r.timestamp);
      EmitKeepsSide(s', CLOSED);
      EmitKeepsSide(s'.Emit(CLOSED), CLOSED);
    }
  }

  // ---------------------------------------------------------------- every step is safe

  /** A step that changes nothing but the state and the call of one side. */
  lemma LocalIsSafe(s: System, w: Who, side: Side)
    requires Safe(s) && SideOk(side) && side.state != IDLE
    requires side.connectedAt == s.Of(w).connectedAt && side.closedAt == s.Of(w).closedAt
    requires side.peerConnectedAt == s.Of(w).peerConnectedAt && side.peerClosedAt == s.Of(w).peerClosedAt
    requires AskedToClose(s.Of(w).state) ==> AskedToClose(side.state)
    ensures Safe(s.With(w, side))
  {
  }

  lemma CallIsSafe(s: System, w: Who)
    requires Safe(s) && Enabled(s, Call(w))
    ensures Safe(Step(s, Call(w)))
  {
  }

  lemma ArriveIsSafe(s: System, from: Who, c: CallType, now: nat)
    requires Safe(s) && Enabled(s, Arrive(from, c, now))
    ensures Safe(Step(s, Arrive(from, c, now)))
  {
    var s' := Step(s, Arrive(from, c, now));
    SafeFrom(s, from);
    SafeFrom(s', from);
    HandleKeepsSide(s.Of(Other(from)), c, now);
    hide Safe, SideOk, Handle, AskedToClose;
    forall c', r' | (from, c', r') in s.replies ensures Tells(s'.Of(Other(from)), c', r') {
      assert Tells(s.Of(Other(from)), c', r');
    }
  }

  lemma ReturnIsSafe(s: System, w: Who, r: Response)
    requires Safe(s) && Enabled(s, Return(w, r))
    ensures Safe(Step(s, Return(w, r)))
  {
    var s' := Step(s, Return(w, r));
    SafeFrom(s, w);
    SafeFrom(s', w);
    var c := s.Of(w).call.value;
    ReturnedKeepsSide(s.Of(w), s.Of(Other(w)), c, r);
    hide Safe, SideOk, Returned, AskedToClose;
    forall c', r' | (Other(w), c', r') in s.replies ensures Tells(s'.Of(w), c', r') {
      assert Tells(s.Of(w), c', r');
    }
  }

  lemma CloseIsSafe(s: System, w: Who)
    requires Safe(s) && Enabled(s, Close(w))
    ensures Safe(Step(s, Close(w)))
  {
    EmitKeepsSide(s.Of(w), FAILED);
    EmitKeepsSide(s.Of(w), CLOSING);
    LocalIsSafe(s, w, Step(s, Close(w)).Of(w));
    hide Safe, SideOk, AskedToClose;
  }

  lemma StepIsSafe(s: System, a: Action)
    requires Safe(s) && Enabled(s, a)
    ensures Safe(Step(s, a))
  {
    match a
    case Connect(w) => LocalIsSafe(s, w, s.Of(w).(state := CONNECTING_UNCONNECTED));
    case Close(w) => CloseIsSafe(s, w);
    case Fail(w) =>
      EmitKeepsSide(s.Of(w), FAILED);
      LocalIsSafe(s, w, s.Of(w).Emit(FAILED));
    case Call(w) => CallIsSafe(s, w);
    case Arrive(from, c, now) => ArriveIsSafe(s, from, c, now);
    case Return(w, r) => ReturnIsSafe(s, w, r);
    case Lose(w) => LocalIsSafe(s, w, s.Of(w).(call := None));
  }

  lemma {:induction false} EveryRunIsSafe(actions: seq<Action>)
    ensures Safe(After(actions))
  {
    if actions != [] {
      var s := After(actions[..|actions| - 1]);
      EveryRunIsSafe(actions[..|actions| - 1]);
      if Enabled(s, actions[|actions| - 1]) {
        StepIsSafe(s, actions[|actions| - 1]);
        hide Safe, Step;
      }
    }
  }

  // ---------------------------------------------------------------- main results

  /** Two channels that have both been READY report the same connection time, and two that are both DONE the same
      closing time, whatever calls and replies were lost or repeated. */
  lemma TimesAgree(actions: seq<Action>)
    ensures var s := After(actions);
            && (s.left.wasReady && s.right.wasReady ==> 0 < s.left.ConnectedAt() == s.right.ConnectedAt())
            && (s.left.state == DONE && s.right.state == DONE ==> 0 < s.left.ClosedAt() == s.right.ClosedAt())
  {
    EveryRunIsSafe(actions);
    hide After;
  }

  /** Each time is the later one of what both sides say. */
  lemma LaterTimes(s: Side)
    ensures s.state != IDLE ==>
              && s.ConnectedAt() >= s.connectedAt && s.ConnectedAt() >= s.peerConnectedAt
              && s.ConnectedAt() in {s.connectedAt, s.peerConnectedAt}
    ensures s.state == DONE ==>
              && s.ClosedAt() >= s.closedAt && s.ClosedAt() >= s.peerClosedAt
              && s.ClosedAt() in {s.closedAt, s.peerClosedAt}
  {
  }

  /** Once a channel has been READY its connection time no longer changes. */
  lemma ConnectedAtIsStable(s: System, a: Action, w: Who)
    requires Safe(s) && Enabled(s, a) && s.Of(w).wasReady
    ensures Step(s, a).Of(w).wasReady && Step(s, a).Of(w).ConnectedAt() == s.Of(w).ConnectedAt()
  {
    StepIsSafe(s, a);
    StepKeepsTimes(s, a, w);
  }

  lemma StepKeepsTimes(s: System, a: Action, w: Who)
    requires Safe(s) && Enabled(s, a) && s.Of(w).wasReady
    ensures var s' := Step(s, a).Of(w);
            && s'.wasReady && s'.state != IDLE && s'.connectedAt == s.Of(w).connectedAt
            && s'.peerConnectedAt == s.Of(w).peerConnectedAt
  {
    SafeFrom(s, w);
    hide Safe;
    match a
    case Arrive(from, c, now) =>
      if from != w {
        HandleKeepsSide(s.Of(w), c, now);
      }
    case Return(v, r) =>
      if v == w {
        ReturnedKeepsSide(s.Of(w), s.Of(Other(w)), s.Of(w).call.value, r);
      }
    case _ =>
  }

  /** A channel sees its peer closed only if the peer has asked to close (or has failed since). */
  lemma ClosedOnlyIfAsked(actions: seq<Action>, w: Who)
    requires After(actions).Of(w).state in {CONNECTED_CLOSED, CLOSING_CLOSED, DONE}
    ensures AskedToClose(After(actions).Of(Other(w)).state)
  {
    EveryRunIsSafe(actions);
    hide After;
  }

  // ---------------------------------------------------------------- a CLOSE that comes too early

  /** The channel knows that its peer has closed. */
  predicate KnowsPeerClosed(s: State) {
    s in {CONNECTED_CLOSED, CLOSING_CLOSED, DONE}
  }

  /** A CLOSE answered with OK is learnt unless the own connection is still being established: then it is acknowledged
      and forgotten. */
  lemma EarlyCloseIsForgotten(s: Side, now: nat)
    requires s.state != IDLE && Handle(s, CLOSE, now).1.code == OK
    ensures KnowsPeerClosed(Handle(s, CLOSE, now).0.state) <==> s.state != CONNECTING_CONNECTED
  {
  }

  /** The action is a CLOSE that reaches `w` and is answered with OK ... */
  predicate AnswersClose(s: System, a: Action, w: Who) {
    a.Arrive? && a.from == Other(w) && a.call == CLOSE && Enabled(s, a) && Handle(s.Of(w), CLOSE, a.now).1.code == OK
  }

  /** ... once in the run, ... */
  predicate ClosesAnswered(actions: seq<Action>, w: Who) {
    actions != [] &&
    var front := actions[..|actions| - 1];
    ClosesAnswered(front, w) || AnswersClose(After(front), actions[|actions| - 1], w)
  }

  /** ... and once while the own connection was established. */
  predicate ClosesLearnt(actions: seq<Action>, w: Who) {
    actions != [] &&
    var front := actions[..|actions| - 1];
    || ClosesLearnt(front, w)
    || (AnswersClose(After(front), actions[|actions| - 1], w) && After(front).Of(w).state != CONNECTING_CONNECTED)
  }

  /** The channel knows no more about its peer's closing than before. */
  ghost predicate LearnsNothing(before: Side, after: Side) {
    && (after.state != ERROR ==>
          before.state != ERROR && (KnowsPeerClosed(after.state) <==> KnowsPeerClosed(before.state)))
    && after.peerClosedAt == before.peerClosedAt
  }

  lemma EmitLearnsNothing(s: Side, e: Event)
    requires e != PEER_CLOSED
    ensures LearnsNothing(s, s.Emit(e))
  {
  }

  lemma ReturnLearnsNothing(s: Side, c: CallType, r: Response)
    ensures LearnsNothing(s, Returned(s, c, r))
  {
    if r.code != OK {
      EmitLearnsNothing(s.(call := None), FAILED);
    } else if c == CONNECT {
      var s' := s.(call := None, connectedAt := r.timestamp);
      EmitLearnsNothing(s', CONNECTED);
      EmitLearnsNothing(s'.Emit(CONNECTED), CONNECTED);
    } else if c == CLOSE {
      var s' := s.(call := None, closedAt := r.timestamp);
      EmitLearnsNothing(s', CLOSED);
      EmitLearnsNothing(s'.Emit(CLOSED), CLOSED);
    }
  }

  lemma HandleLearns(s: Side, c: CallType, now: nat)
    requires s.state != IDLE && now > 0
    ensures var (s', r) := Handle(s, c, now);
            if c == CLOSE && r.code == OK then
              && s.state != ERROR && s'.state != ERROR && s'.peerClosedAt > 0
              && (KnowsPeerClosed(s'.state) <==> KnowsPeerClosed(s.state) || s.state != CONNECTING_CONNECTED)
            else LearnsNothing(s, s')
  {
    if c == CONNECT {
      EmitLearnsNothing(s, PEER_CONNECTED);
    }
  }

  lemma LearnStep(s: System, a: Action, w: Who)
    requires Enabled(s, a)
    ensures var before, after := s.Of(w), Step(s, a).Of(w);
            && (after.state != ERROR ==>
                  && before.state != ERROR
                  && (KnowsPeerClosed(after.state) <==>
                        || KnowsPeerClosed(before.state)
                        || (AnswersClose(s, a, w) && before.state != CONNECTING_CONNECTED)))
            && (after.peerClosedAt > 0 <==> before.peerClosedAt > 0 || AnswersClose(s, a, w))
  {
    hide Handle, Returned, Side.Emit;
    match a
    case Close(v) =>
      EmitLearnsNothing(s.Of(v), FAILED);
      EmitLearnsNothing(s.Of(v), CLOSING);
    case Fail(v) => EmitLearnsNothing(s.Of(v), FAILED);
    case Arrive(from, c, now) => HandleLearns(s.Of(Other(from)), c, now);
    case Return(v, r) => ReturnLearnsNothing(s.Of(v), s.Of(v).call.value, r);
    case _ =>
  }

  /** Over all runs: a channel that has not failed knows that its peer has closed exactly when some CLOSE reached it
      outside the state in which it forgets it, and has a closing time for its peer exactly when it answered one. */
  lemma {:induction false} KnowsExactlyWhatItLearnt(actions: seq<Action>, w: Who)
    ensures var s := After(actions).Of(w);
            && (s.state != ERROR ==> (KnowsPeerClosed(s.state) <==> ClosesLearnt(actions, w)))
            && (s.peerClosedAt > 0 <==> ClosesAnswered(actions, w))
  {
    if actions != [] {
      var front, a := actions[..|actions| - 1], actions[|actions| - 1];
      KnowsExactlyWhatItLearnt(front, w);
      hide Step, KnowsPeerClosed, AnswersClose;
      if Enabled(After(front), a) {
        LearnStep(After(front), a, w);
      } else {
        NoAnswer(After(front), a, w);
      }
    }
  }

  lemma NoAnswer(s: System, a: Action, w: Who)
    requires !Enabled(s, a)
    ensures !AnswersClose(s, a, w)
  {
  }

  /** The run after one more possible step. */
  lemma Do(actions: seq<Action>, s: System, a: Action) returns (actions': seq<Action>, s': System)
    requires s == After(actions) && Enabled(s, a)
    ensures actions' == actions + [a] && s' == Step(s, a) && s' == After(actions')
  {
    actions', s' := actions + [a], Step(s, a);
    assert actions'[..|actions|] == actions;
  }

  /** `from` makes a call, and it reaches the other side, whose answer may be lost. */
  lemma CallArrives(actions: seq<Action>, s: System, from: Who, now: nat) returns (actions': seq<Action>, s': System)
    requires s == After(actions) && Enabled(s, Call(from)) && s.Of(Other(from)).state != IDLE && now > 0
    ensures s' == After(actions') && s.replies <= s'.replies
    ensures var c := NextCall(s.Of(from).state);
            var (side, r) := Handle(s.Of(Other(from)), c, now);
            && s'.Of(from) == s.Of(from).(call := Some(c)) && s'.Of(Other(from)) == side
            && (from, c, r) in s'.replies
  {
    hide After, Handle, NextCall;
    var c := NextCall(s.Of(from).state);
    actions', s' := Do(actions, s, Call(from));
    actions', s' := Do(actions', s', Arrive(from, c, now));
  }

  lemma BothConnect() returns (actions: seq<Action>, s: System)
    ensures s == After(actions)
    ensures s.left == CLEAN.(state := CONNECTING_UNCONNECTED) == s.right
  {
    actions := [];
    s := After(actions);
    actions, s := Do(actions, s, Connect(Left));
    actions, s := Do(actions, s, Connect(Right));
  }

  /** Both connect; the reply to Left is lost, Right becomes READY. */
  lemma LeftReplyLost() returns (actions: seq<Action>, s: System)
    ensures s == After(actions) && s.left == Side(CONNECTING_CONNECTED, 0, 0, 6, 0, None, false)
    ensures s.right == Side(READY, 6, 0, 5, 0, None, true) && (Left, CONNECT, Response(OK, 5)) in s.replies
  {
    actions, s := BothConnect();
    hide After, Step;
    actions, s := CallArrives(actions, s, Left, 5);
    assert s.right == Side(CONNECTING_CONNECTED, 0, 0, 5, 0, None, false);
    actions, s := LoseCall(actions, s, Left);
    actions, s := CallArrives(actions, s, Right, 6);
    actions, s := TakeAnswer(actions, s, Right, Response(OK, 6));
  }

  lemma LoseCall(actions: seq<Action>, s: System, w: Who) returns (actions': seq<Action>, s': System)
    requires s == After(actions) && Enabled(s, Lose(w))
    ensures s' == After(actions') && s'.replies == s.replies
    ensures s'.Of(w) == s.Of(w).(call := None) && s'.Of(Other(w)) == s.Of(Other(w))
  {
    hide After;
    actions', s' := Do(actions, s, Lose(w));
  }

  lemma TakeAnswer(actions: seq<Action>, s: System, w: Who, r: Response) returns (actions': seq<Action>, s': System)
    requires s == After(actions) && Enabled(s, Return(w, r))
    ensures s' == After(actions') && s'.replies == s.replies
    ensures s'.Of(w) == Returned(s.Of(w), s.Of(w).call.value, r) && s'.Of(Other(w)) == s.Of(Other(w))
  {
    hide After, Returned;
    actions', s' := Do(actions, s, Return(w, r));
  }

  lemma AskToClose(actions: seq<Action>, s: System, w: Who) returns (actions': seq<Action>, s': System)
    requires s == After(actions) && s.Of(w).state == READY
    ensures s' == After(actions') && s'.replies == s.replies
    ensures s'.Of(w) == s.Of(w).(state := CLOSING_CONNECTED) && s'.Of(Other(w)) == s.Of(Other(w))
  {
    hide After;
    actions', s' := Do(actions, s, Close(w));
  }

  /** It does happen: Right closes before Left's connection is established.  Right ends up waiting for its peer, making
      only HEARTBEAT calls, and Left is READY and does not know. */
  lemma ForgottenCloseHappens() returns (actions: seq<Action>)
    ensures var s := After(actions);
            && s.right.state == CLOSED_CONNECTED && s.left.state == READY && s.left.peerClosedAt == 7
            && NextCall(s.right.state) == HEARTBEAT
    ensures ClosesAnswered(actions, Left) && !ClosesLearnt(actions, Left)
  {
    var s;
    actions, s := LeftReplyLost();
    hide After, ClosesAnswered, ClosesLearnt, Step;
    actions, s := AskToClose(actions, s, Right);
    actions, s := CallArrives(actions, s, Right, 7);
    assert s.left == Side(CONNECTING_CONNECTED, 0, 0, 6, 7, None, false);
    actions, s := TakeAnswer(actions, s, Right, Response(OK, 7));
    actions, s := CallArrives(actions, s, Left, 8);
    actions, s := TakeAnswer(actions, s, Left, Response(OK, 5));
    KnowsExactlyWhatItLearnt(actions, Left);
  }

  /** Nor does it ever get to know, whatever happens next, unless one of those CLOSE calls reaches it once more. */
  lemma {:induction false} WithoutAnotherClose(before: seq<Action>, more: seq<Action>, w: Who)
    requires !ClosesLearnt(before, w)
    requires forall a :: a in more && a.Arrive? && a.from == Other(w) ==> a.call != CLOSE
    ensures !ClosesLearnt(before + more, w)
    ensures After(before + more).Of(w).state != DONE
  {
    if more == [] {
      assert before + more == before;
    } else {
      var front := more[..|more| - 1];
      WithoutAnotherClose(before, front, w);
      assert (before + more)[..|before + more| - 1] == before + front;
      assert more[|more| - 1] in more;
    }
    KnowsExactlyWhatItLearnt(before + more, w);
    hide After;
  }
}
