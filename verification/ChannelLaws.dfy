/** What the state of a channel says about what has happened, and when no channel fails. */
module ChannelLaws {
  import opened Wrappers
  import opened Channel

  // ---------------------------------------------------------------- the meaning of a state

  /** The own CONNECT was answered, the peer's CONNECT was taken, the application has closed, the own CLOSE was
      answered, and the peer's CLOSE was learnt. */
  datatype Facts = Facts(connected: bool, peerConnected: bool, asked: bool, closed: bool, learnt: bool)

  function StateFor(f: Facts): State {
    if !f.connected then (if f.peerConnected then CONNECTING_CONNECTED else CONNECTING_UNCONNECTED)
    else if !f.peerConnected then CONNECTED_UNCONNECTED
    else if f.closed then (if f.learnt then DONE else CLOSED_CONNECTED)
    else if f.asked then (if f.learnt then CLOSING_CLOSED else CLOSING_CONNECTED)
    else if f.learnt then CONNECTED_CLOSED
    else READY
  }

  /** The application closes the channel, once in the run. */
  predicate Asked(actions: seq<Action>, w: Who) {
    actions != [] &&
    var front, a := actions[..|actions| - 1], actions[|actions| - 1];
    Asked(front, w) || (a == Close(w) && Enabled(After(front), a))
  }

  function FactsOf(s: Side, asked: bool, learnt: bool): Facts {
    Facts(s.connectedAt > 0, s.peerConnectedAt > 0, asked, s.closedAt > 0, learnt)
  }

  /** A channel that is at work is in the state its facts say, and the facts come in order. */
  ghost predicate Meant(s: Side, asked: bool, learnt: bool) {
    && (s.state == IDLE ==> !asked && !learnt)
    && (s.state != IDLE && s.state != ERROR ==>
          && s.state == StateFor(FactsOf(s, asked, learnt))
          && (s.closedAt > 0 ==> asked)
          && (asked || learnt ==> s.connectedAt > 0 && s.peerConnectedAt > 0))
  }

  lemma HandleMeans(s: Side, c: CallType, now: nat, asked: bool, learnt: bool)
    requires SideOk(s) && Meant(s, asked, learnt) && s.state != IDLE && now > 0
    ensures var (s', r) := Handle(s, c, now);
            Meant(s', asked, learnt || (c == CLOSE && r.code == OK && s.state != CONNECTING_CONNECTED))
  {
  }

  lemma ReturnMeans(s: Side, o: Side, c: CallType, r: Response, asked: bool, learnt: bool)
    requires SideOk(s) && Meant(s, asked, learnt) && s.state != IDLE && s.call == Some(c) && Tells(o, c, r)
    ensures Meant(Returned(s, c, r), asked, learnt)
  {
  }

  lemma StepMeans(s: System, a: Action, w: Who, asked: bool, learnt: bool)
    requires Safe(s) && Enabled(s, a) && Meant(s.Of(w), asked, learnt)
    ensures Meant(Step(s, a).Of(w), asked || a == Close(w),
                  learnt || (AnswersClose(s, a, w) && s.Of(w).state != CONNECTING_CONNECTED))
  {
    hide Safe, SideOk, Meant, ToldOk, Handle, Returned, Side.Emit;
    SafeFrom(s, w);
    match a
    case Arrive(from, c, now) =>
      if from != w {
        SideIsUp(s.Of(w), s.Of(Other(w)), w, c, s.sent, s.replies);
        HandleMeans(s.Of(w), c, now, asked, learnt);
      }
    case Return(v, r) =>
      if v == w {
        AnswerTells(s.Of(w), s.Of(Other(w)), w, r, s.sent, s.replies);
        ReturnMeans(s.Of(w), s.Of(Other(w)), s.Of(w).call.value, r, asked, learnt);
      }
    case Close(v) => CloseMeans(s.Of(w), asked, learnt);
    case Fail(v) => FailMeans(s.Of(w), asked, learnt);
    case Connect(v) => ConnectMeans(s.Of(w), asked, learnt);
    case Call(v) => CallMeans(s.Of(w), Some(NextCall(s.Of(w).state)), asked, learnt);
    case Lose(v) => CallMeans(s.Of(w), None, asked, learnt);
  }

  lemma SideIsUp(s: Side, o: Side, w: Who, c: CallType, sent: set<(Who, CallType)>,
                 replies: set<(Who, CallType, Response)>)
    requires ToldOk(w, s, o, sent, replies)
    ensures forall c :: (w, c) in sent ==> s.state != IDLE
  {
  }

  lemma AnswerTells(s: Side, o: Side, w: Who, r: Response, sent: set<(Who, CallType)>,
                    replies: set<(Who, CallType, Response)>)
    requires SideOk(s) && ToldOk(w, s, o, sent, replies) && s.call.Some? && (w, s.call.value, r) in replies
    ensures s.state != IDLE && Tells(o, s.call.value, r)
  {
  }

  lemma CloseMeans(s: Side, asked: bool, learnt: bool)
    requires Meant(s, asked, learnt)
    ensures s.state != IDLE && s.state != ERROR ==>
              var e := if s.state in {CONNECTING_UNCONNECTED, CONNECTED_UNCONNECTED, CONNECTING_CONNECTED} then FAILED
                       else CLOSING;
              Meant(s.Emit(e), true, learnt)
  {
  }

  lemma FailMeans(s: Side, asked: bool, learnt: bool)
    requires Meant(s, asked, learnt)
    ensures s.state != IDLE ==> Meant(s.Emit(FAILED), asked, learnt)
  {
  }

  lemma ConnectMeans(s: Side, asked: bool, learnt: bool)
    requires SideOk(s) && Meant(s, asked, learnt)
    ensures s.state == IDLE ==> Meant(s.(state := CONNECTING_UNCONNECTED), asked, learnt)
  {
  }

  lemma CallMeans(s: Side, call: Option<CallType>, asked: bool, learnt: bool)
    requires Meant(s, asked, learnt)
    ensures Meant(s.(call := call), asked, learnt)
  {
  }

  /** In every run the state of a channel that has not failed is determined by what has happened; in particular it is
      DONE exactly when its own CLOSE was answered and its peer's CLOSE was learnt. */
  lemma {:induction false} StateIsExact(actions: seq<Action>, w: Who)
    ensures var s := After(actions).Of(w);
            && Meant(s, Asked(actions, w), ClosesLearnt(actions, w))
            && (s.state != ERROR ==> (s.state == DONE <==> s.closedAt > 0 && ClosesLearnt(actions, w)))
  {
    if actions != [] {
      var front, a := actions[..|actions| - 1], actions[|actions| - 1];
      StateIsExact(front, w);
      EveryRunIsSafe(front);
      hide Step, Safe, Meant, AnswersClose;
      if Enabled(After(front), a) {
        StepMeans(After(front), a, w, Asked(front, w), ClosesLearnt(front, w));
      } else {
        NoAnswer(After(front), a, w);
      }
    }
    EveryRunIsSafe(actions);
    DoneMeans(actions, w);
  }

  lemma DoneMeans(actions: seq<Action>, w: Who)
    requires Safe(After(actions)) && Meant(After(actions).Of(w), Asked(actions, w), ClosesLearnt(actions, w))
    ensures var s := After(actions).Of(w);
            s.state != ERROR ==> (s.state == DONE <==> s.closedAt > 0 && ClosesLearnt(actions, w))
  {
    SafeFrom(After(actions), w);
    hide Safe, After, Asked, ClosesLearnt, ToldOk;
  }

  // ---------------------------------------------------------------- when no channel fails

  predicate Unready(s: State) {
    s in {CONNECTING_UNCONNECTED, CONNECTED_UNCONNECTED, CONNECTING_CONNECTED}
  }

  /** Nothing fails from outside, and no application closes a channel that is not ready. */
  ghost predicate Orderly(actions: seq<Action>) {
    actions != [] ==>
      var front, a := actions[..|actions| - 1], actions[|actions| - 1];
      && Orderly(front) && !a.Fail?
      && (a.Close? ==> !Unready(After(front).Of(a.who).state))
  }

  /** The timestamps of connecting say how far the channel has got. */
  ghost predicate Fits(s: Side) {
    s.state != IDLE && s.state != ERROR ==>
      (PeerUnconnected(s.state) <==> s.peerConnectedAt == 0) && (Connecting(s.state) <==> s.connectedAt == 0)
  }

  /** No channel has failed, and no answer on its way can make one fail. */
  ghost predicate HealthySide(w: Who, s: Side, sent: set<(Who, CallType)>, replies: set<(Who, CallType, Response)>) {
    && s.state != ERROR && (s.call == Some(CONNECT) ==> Connecting(s.state))
    && (forall c, r :: (w, c, r) in replies ==> r.code == OK || (c == CONNECT && AskedToClose(s.state)))
    && ((w, HEARTBEAT) in sent || (w, CLOSE) in sent ==> s.connectedAt > 0)
  }

  ghost predicate Healthy(s: System) {
    HealthySide(Left, s.left, s.sent, s.replies) && HealthySide(Right, s.right, s.sent, s.replies)
  }

  lemma HealthyFrom(s: System, w: Who)
    ensures Healthy(s) <==> HealthySide(w, s.Of(w), s.sent, s.replies)
                            && HealthySide(Other(w), s.Of(Other(w)), s.sent, s.replies)
  {
    hide HealthySide;
  }

  lemma RunFits(actions: seq<Action>, w: Who)
    ensures Fits(After(actions).Of(w))
  {
    StateIsExact(actions, w);
    hide After, Asked, ClosesLearnt;
  }

  /** A call that arrives is answered with OK, unless it is an old CONNECT. */
  lemma AnsweredWell(w: Who, s: Side, o: Side, sent: set<(Who, CallType)>, replies: set<(Who, CallType, Response)>,
                     c: CallType, now: nat)
    requires SideOk(s) && SideOk(o) && ToldOk(w, s, o, sent, replies) && ToldOk(Other(w), o, s, sent, replies)
    requires HealthySide(w, s, sent, replies) && Fits(o) && Fits(s) && o.state != IDLE && o.state != ERROR
    requires (w, c) in sent && now > 0
    ensures var (o', r) := Handle(o, c, now);
            && o'.state != ERROR && (r.code == OK || (c == CONNECT && AskedToClose(s.state)))
            && (Connecting(o.state) ==> Connecting(o'.state)) && (AskedToClose(o.state) ==> AskedToClose(o'.state))
  {
  }

  lemma ArriveIsHealthy(s: System, w: Who, c: CallType, now: nat)
    requires Safe(s) && Healthy(s) && Enabled(s, Arrive(w, c, now)) && Fits(s.left) && Fits(s.right)
    ensures Healthy(Step(s, Arrive(w, c, now)))
  {
    var s' := Step(s, Arrive(w, c, now));
    SafeFrom(s, w);
    HealthyFrom(s, w);
    HealthyFrom(s', w);
    AnsweredWell(w, s.Of(w), s.Of(Other(w)), s.sent, s.replies, c, now);
    HandleKeepsSide(s.Of(Other(w)), c, now);
    HandleKeepsCall(s.Of(Other(w)), c, now);
    hide Safe, Healthy, Handle, SideOk, ToldOk, AskedToClose;
  }

  lemma HandleKeepsCall(s: Side, c: CallType, now: nat)
    ensures Handle(s, c, now).0.call == s.call && Handle(s, c, now).0.connectedAt == s.connectedAt
  {
  }

  lemma ReturnIsHealthy(s: System, w: Who, r: Response)
    requires Safe(s) && Healthy(s) && Enabled(s, Return(w, r))
    ensures Healthy(Step(s, Return(w, r)))
  {
    SafeFrom(s, w);
    HealthyFrom(s, w);
    HealthyFrom(Step(s, Return(w, r)), w);
    hide Safe, Healthy, ToldOk;
    TakenWell(w, s.Of(w), s.sent, s.replies, r);
    hide SideOk, HealthySide, Returned;
  }

  lemma TakenWell(w: Who, s: Side, sent: set<(Who, CallType)>, replies: set<(Who, CallType, Response)>, r: Response)
    requires SideOk(s) && HealthySide(w, s, sent, replies) && s.call.Some? && (w, s.call.value, r) in replies
    requires r.code == OK && s.call.value == CONNECT ==> r.timestamp > 0
    ensures HealthySide(w, Returned(s, s.call.value, r), sent, replies)
  {
  }

  lemma LocalIsHealthy(s: System, a: Action, w: Who)
    requires Safe(s) && Healthy(s) && Enabled(s, a) && Fits(s.Of(w))
    requires a == Connect(w) || a == Call(w) || a == Lose(w) || (a == Close(w) && !Unready(s.Of(w).state))
    ensures Healthy(Step(s, a))
  {
    SafeFrom(s, w);
    HealthyFrom(s, w);
    HealthyFrom(Step(s, a), w);
    hide Safe, Healthy, ToldOk;
  }

  /** As long as nothing fails from outside and no channel is closed before it is ready, no channel fails, whatever
      calls and replies are lost, late or repeated: no call is ever refused in a way that matters. */
  lemma {:induction false} OrderlyRunsNeverFail(actions: seq<Action>)
    requires Orderly(actions)
    ensures After(actions).left.state != ERROR && After(actions).right.state != ERROR && Healthy(After(actions))
  {
    if actions != [] {
      var front, a := actions[..|actions| - 1], actions[|actions| - 1];
      var s := After(front);
      OrderlyRunsNeverFail(front);
      EveryRunIsSafe(front);
      RunFits(front, Left);
      RunFits(front, Right);
      hide Safe, Healthy, Step, Fits;
      if Enabled(s, a) {
        match a
        case Arrive(from, c, now) => ArriveIsHealthy(s, from, c, now);
        case Return(w, r) => ReturnIsHealthy(s, w, r);
        case Connect(w) => LocalIsHealthy(s, a, w);
        case Close(w) => LocalIsHealthy(s, a, w);
        case Call(w) => LocalIsHealthy(s, a, w);
        case Lose(w) => LocalIsHealthy(s, a, w);
        case Fail(w) =>
      }
    }
    HealthyMeans(After(actions));
  }

  lemma HealthyMeans(s: System)
    ensures Healthy(s) ==> s.left.state != ERROR && s.right.state != ERROR
  {
  }
}
