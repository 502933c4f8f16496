/** When a round of federated averaging can be completed. */
module FedAvgProgress {
  import opened FedAvg
  import opened FedAvgRounds

  /** One more step, if it is possible. */
  ghost function Go(s: System, a: Action): System {
    if Enabled(s, a) && s.ledger != [] && s.leader.aggregating.Valid() then Step(s, a) else s
  }

  ghost function Continue(s: System, more: seq<Action>): System
    decreases |more|
  {
    if more == [] then s else Continue(Go(s, more[0]), more[1..])
  }

  lemma {:induction false} ContinueMore(s: System, xs: seq<Action>, ys: seq<Action>)
    ensures Continue(s, xs + ys) == Continue(Continue(s, xs), ys)
    decreases |xs|
  {
    hide Go;
    if xs == [] {
      assert xs + ys == ys;
    } else {
      assert (xs + ys)[1..] == xs[1..] + ys;
      ContinueMore(Go(s, xs[0]), xs[1..], ys);
    }
  }

  /** A push under way has been sent, and if it has been counted, its answer is there. */
  ghost predicate PushUnderWay(f: Name, e: Session, c: Client, sent: set<PushRequest>, answers: set<PushReply>) {
    c.Pushing? ==>
      && c.request.name == f && c.request in sent
      && (c.request.version < e.latestVersion ==>
            PushReply(f, c.request.version, true, e.latestVersion) in answers)
  }

  ghost predicate PushesUnderWay(s: System) {
    forall f :: f in s.clients && f in s.leader.sessions ==>
      PushUnderWay(f, s.leader.sessions[f], s.clients[f], s.sent, s.answers)
  }

  lemma CountedPush(s: System, r: PushRequest, f: Name)
    requires Safe(s) && PushesUnderWay(s) && Enabled(s, PushArrives(r))
    requires s.ledger != [] && s.leader.aggregating.Valid()
    requires Accepts(s.leader, r.name, r.version) && f in s.clients && f in s.leader.sessions
    ensures var s' := Step(s, PushArrives(r));
            && f in s'.clients && f in s'.leader.sessions
            && PushUnderWay(f, s'.leader.sessions[f], s'.clients[f], s'.sent, s'.answers)
  {
    hide Safe, Step, Enabled, Accepts, Aggregate.Valid;
    AcceptedIsCurrent(s, r) by {
      PushIsSent(s, PushArrives(r));
    }
    AcceptedStep(s, r);
    SafeBasics(s);
  }

  lemma OtherStepKeepsPush(s: System, a: Action, f: Name)
    requires PushesUnderWay(s) && Enabled(s, a) && s.ledger != [] && s.leader.aggregating.Valid()
    requires a.PushArrives? ==> !Accepts(s.leader, a.request.name, a.request.version)
    requires f in Step(s, a).clients && f in Step(s, a).leader.sessions && f in s.clients && f in s.leader.sessions
    requires s.clients[f].Training? ==> s.leader.sessions[f].latestVersion == s.clients[f].version
    ensures PushUnderWay(f, Step(s, a).leader.sessions[f], Step(s, a).clients[f], Step(s, a).sent, Step(s, a).answers)
  {
    hide Aggregate.Valid, Mean, Plus, Record, Unpushed, Pull;
    assert PushUnderWay(f, s.leader.sessions[f], s.clients[f], s.sent, s.answers);
    hide PushesUnderWay;
  }

  lemma SameFollowers(s: System, a: Action)
    requires Enabled(s, a) && s.ledger != [] && s.leader.aggregating.Valid() && s.clients.Keys == s.leader.sessions.Keys
    ensures Step(s, a).clients.Keys == s.clients.Keys == Step(s, a).leader.sessions.Keys
  {
    hide Aggregate.Valid, Mean, Plus, Record, Unpushed;
  }

  lemma TrainingAt(s: System, f: Name)
    requires Safe(s) && f in s.clients && f in s.leader.sessions
    ensures s.clients[f].Training? ==> s.leader.sessions[f].latestVersion == s.clients[f].version
  {
    FollowerAt(s, f);
    hide Safe;
  }

  lemma SafeKeys(s: System)
    requires Safe(s)
    ensures s.clients.Keys == s.leader.sessions.Keys
  {
    hide BooksOk, LeaderOnce, PullsOk, FinishedOk, StageOk, FollowerOk, Contributed;
  }

  lemma StepKeepsPushes(s: System, a: Action)
    requires Safe(s) && PushesUnderWay(s) && Enabled(s, a) && s.ledger != [] && s.leader.aggregating.Valid()
    ensures PushesUnderWay(Step(s, a))
  {
    hide Safe, Step, Enabled, Accepts, Aggregate.Valid, PushUnderWay;
    SafeKeys(s);
    SameFollowers(s, a);
    var s' := Step(s, a);
    forall f | f in s'.clients && f in s'.leader.sessions
      ensures PushUnderWay(f, s'.leader.sessions[f], s'.clients[f], s'.sent, s'.answers)
    {
      if a.PushArrives? && Accepts(s.leader, a.request.name, a.request.version) {
        CountedPush(s, a.request, f);
      } else {
        TrainingAt(s, f);
        OtherStepKeepsPush(s, a, f);
      }
    }
  }

  /** In every run, whatever is lost or repeated. */
  lemma {:induction false} EveryRunKeepsPushes(followers: set<Name>, weights: Weights, now: int, actions: seq<Action>)
    ensures PushesUnderWay(After(followers, weights, now, actions))
  {
    if actions != [] {
      var front := actions[..|actions| - 1];
      EveryRunKeepsPushes(followers, weights, now, front);
      EveryRunIsSafe(followers, weights, now, front);
      var s, a := After(followers, weights, now, front), actions[|actions| - 1];
      hide Safe, Step, Enabled, Aggregate.Valid, PushesUnderWay;
      if Enabled(s, a) && s.ledger != [] && s.leader.aggregating.Valid() {
        StepKeepsPushes(s, a);
      }
    }
  }

  // ---------------------------------------------------------------- one follower catches up

  ghost predicate Fine(s: System) {
    Safe(s) && PushesUnderWay(s)
  }

  lemma GoIsFine(s: System, a: Action)
    requires Fine(s)
    ensures Fine(Go(s, a))
  {
    hide Safe, Step, Enabled, PushesUnderWay, Aggregate.Valid;
    if Enabled(s, a) && s.ledger != [] && s.leader.aggregating.Valid() {
      StepIsSafe(s, a);
      StepKeepsPushes(s, a);
    }
  }

  /** How far the follower is from its next push being counted. */
  ghost function Rank(s: System, f: Name): nat
    requires f in s.clients && f in s.leader.sessions
  {
    match s.clients[f]
    case NotJoined => 6
    case Waiting(v, isLast) =>
      if PullReply(f, v, isLast, true, s.leader.latest) in s.pulls then 3
      else if PullRequest(f, v, isLast) in s.asked then 4 else 5
    case Training(_) => 2
    case Pushing(r) => if r.version < s.leader.sessions[f].latestVersion then 7 else 1
    case Failed => 0
    case Finished(_) => 0
  }

  /** What it does next. */
  ghost function Move(s: System, f: Name): Action
    requires f in s.clients && f in s.leader.sessions
  {
    match s.clients[f]
    case NotJoined => JoinArrives(f, true)
    case Waiting(v, isLast) =>
      if PullReply(f, v, isLast, true, s.leader.latest) in s.pulls
      then PullReturns(PullReply(f, v, isLast, true, s.leader.latest))
      else if PullRequest(f, v, isLast) in s.asked then PullArrives(PullRequest(f, v, isLast)) else FollowerAsks(f)
    case Training(_) => FollowerPushes(f, false, map[])
    case Pushing(r) =>
      if r.version < s.leader.sessions[f].latestVersion
      then PushReturns(PushReply(f, r.version, true, s.leader.sessions[f].latestVersion)) else PushArrives(r)
    case Failed => LeaderStarts
    case Finished(_) => LeaderStarts
  }

  /** The follower is still to push, and has not failed. */
  ghost predicate Behind(s: System, f: Name) {
    f in Unpushed(s.leader) && f in s.clients && !s.clients[f].Failed?
  }

  /** Only this follower has moved. */
  ghost predicate OnlyMoves(s: System, s': System, f: Name) {
    && s'.stage == s.stage && s'.leader.latest == s.leader.latest
    && s'.leader.aggregatingVersion == s.leader.aggregatingVersion
    && s'.leader.sessions.Keys == s.leader.sessions.Keys && s'.clients.Keys == s.clients.Keys
    && (forall g :: g in s.clients && g in s.leader.sessions && g != f ==>
          s'.clients[g] == s.clients[g] && s'.leader.sessions[g] == s.leader.sessions[g])
  }

  lemma BehindMeans(s: System, f: Name)
    requires Fine(s) && Behind(s, f)
    ensures f in s.clients && f in s.leader.sessions && !s.leader.sessions[f].trainEnd && !s.clients[f].Finished?
    ensures s.leader.sessions[f].latestVersion == s.leader.latest.version
    ensures s.leader.aggregatingVersion == s.leader.latest.version + 1 && s.ledger != [] && s.leader.aggregating.Valid()
    ensures PushUnderWay(f, s.leader.sessions[f], s.clients[f], s.sent, s.answers)
    ensures FollowerOk(f, s.leader.sessions[f], s.clients[f], s.leader.latest.version, s.sent, s.answers)
    ensures s.clients[f].Waiting? ==> Pull(s.leader, f, s.clients[f].version, s.clients[f].isLast) == Ok
    ensures s.clients[f].NotJoined? ==> Join(s.leader, f).1 == Ok
  {
    FollowerAt(s, f);
    SafeBasics(s);
    JoinAndQuitAreAnswered(s, f);
    if s.clients[f].Waiting? {
      PullIsExact(s, f);
    }
    hide Safe;
  }

  /** One move helps: it is possible, moves only this follower, and brings it closer to its push. */
  ghost predicate Helps(s: System, s': System, f: Name)
    requires f in s.clients && f in s.leader.sessions
  {
    && OnlyMoves(s, s', f) && f in s'.clients && f in s'.leader.sessions && !s'.clients[f].Failed?
    && (Behind(s', f) ==> Rank(s', f) < Rank(s, f))
  }

  /** A step that changes nothing but this follower's program and what is in flight. */
  ghost predicate FollowerOnly(s: System, s': System, f: Name, c: Client)
    requires f in s.clients
  {
    s'.leader == s.leader && s'.stage == s.stage && s'.clients == s.clients[f := c]
  }

  lemma FollowerHelps(s: System, s': System, f: Name, c: Client)
    requires f in s.clients && f in s.leader.sessions && FollowerOnly(s, s', f, c) && !c.Failed?
    requires Rank(s', f) < Rank(s, f)
    ensures Helps(s, s', f)
  {
    hide Rank, Unpushed;
  }

  lemma JoinHelps(s: System, f: Name)
    requires Fine(s) && Behind(s, f) && f in s.leader.sessions && s.clients[f].NotJoined?
    ensures Helps(s, Go(s, Move(s, f)), f)
  {
    hide Fine, Aggregate.Valid, FollowerOk, Unpushed, Plus, Record, Pull, Push;
    BehindMeans(s, f);
  }

  lemma PullHelps(s: System, f: Name)
    requires Fine(s) && Behind(s, f) && f in s.leader.sessions && s.clients[f].Waiting?
    ensures Helps(s, Go(s, Move(s, f)), f)
  {
    hide Fine, Aggregate.Valid, FollowerOk, Pull, Behind, Helps, Go, Step, Rank;
    BehindMeans(s, f);
    var c, s' := s.clients[f], Go(s, Move(s, f));
    var p := PullReply(f, c.version, c.isLast, true, s.leader.latest);
    if p in s.pulls {
      TakeModel(s, f);
      FollowerHelps(s, s', f, if c.isLast then Finished(s.leader.latest) else Training(s.leader.latest.version));
    } else {
      AskForModel(s, f);
      FollowerHelps(s, s', f, c);
    }
  }

  lemma TakeModel(s: System, f: Name)
    requires f in s.clients && f in s.leader.sessions && s.clients[f].Waiting?
    requires s.ledger != [] && s.leader.aggregating.Valid()
    requires PullReply(f, s.clients[f].version, s.clients[f].isLast, true, s.leader.latest) in s.pulls
    ensures var c, s' := s.clients[f], Go(s, Move(s, f));
            && FollowerOnly(s, s', f, if c.isLast then Finished(s.leader.latest) else Training(s.leader.latest.version))
            && Rank(s', f) < Rank(s, f)
  {
    hide Aggregate.Valid, Pull, Join;
  }

  lemma AskForModel(s: System, f: Name)
    requires f in s.clients && f in s.leader.sessions && s.clients[f].Waiting?
    requires s.ledger != [] && s.leader.aggregating.Valid()
    requires Pull(s.leader, f, s.clients[f].version, s.clients[f].isLast) == Ok
    requires PullReply(f, s.clients[f].version, s.clients[f].isLast, true, s.leader.latest) !in s.pulls
    ensures FollowerOnly(s, Go(s, Move(s, f)), f, s.clients[f]) && Rank(Go(s, Move(s, f)), f) < Rank(s, f)
  {
    hide Aggregate.Valid, Pull, Join;
    assert s.clients == s.clients[f := s.clients[f]];
  }

  lemma TrainHelps(s: System, f: Name)
    requires Fine(s) && Behind(s, f) && f in s.leader.sessions && s.clients[f].Training?
    ensures Helps(s, Go(s, Move(s, f)), f)
  {
    hide Fine, Aggregate.Valid, SentOk, AnswersOk, Behind, Helps, Pull, Join, Unpushed;
    BehindMeans(s, f);
    FollowerHelps(s, Go(s, Move(s, f)), f, Pushing(PushRequest(f, s.clients[f].version, false, map[])));
  }

  lemma AnswerHelps(s: System, f: Name)
    requires Fine(s) && Behind(s, f) && f in s.leader.sessions && s.clients[f].Pushing?
    requires s.clients[f].request.version < s.leader.sessions[f].latestVersion
    ensures Helps(s, Go(s, Move(s, f)), f)
  {
    hide Fine, Aggregate.Valid, FollowerOk, Behind, Helps, Pull, Join, Unpushed;
    BehindMeans(s, f);
    FollowerHelps(s, Go(s, Move(s, f)), f,
                  Waiting(s.leader.sessions[f].latestVersion, s.clients[f].request.isEnd));
  }

  lemma PushHelps(s: System, f: Name)
    requires Fine(s) && Behind(s, f) && f in s.leader.sessions && s.clients[f].Pushing?
    requires s.clients[f].request.version >= s.leader.sessions[f].latestVersion
    ensures Helps(s, Go(s, Move(s, f)), f)
  {
    hide Fine, Aggregate.Valid, FollowerOk, Record, Step, Enabled, Go, Rank, Pull, Join;
    BehindMeans(s, f);
    var r := s.clients[f].request;
    CurrentPush(s, f);
    AcceptedStep(s, r);
    PushStep(s, r);
  }

  lemma CurrentPush(s: System, f: Name)
    requires f in s.clients && f in s.leader.sessions && s.clients[f].Pushing?
    requires FollowerOk(f, s.leader.sessions[f], s.clients[f], s.leader.latest.version, s.sent, s.answers)
    requires PushUnderWay(f, s.leader.sessions[f], s.clients[f], s.sent, s.answers)
    requires s.clients[f].request.version >= s.leader.sessions[f].latestVersion
    ensures var r := s.clients[f].request;
            r.name == f && Accepts(s.leader, f, r.version) && Enabled(s, PushArrives(r))
  {
    hide SentOk, AnswersOk;
  }

  lemma PushStep(s: System, r: PushRequest)
    requires Enabled(s, PushArrives(r)) && s.ledger != [] && s.leader.aggregating.Valid()
    requires Accepts(s.leader, r.name, r.version)
    ensures var s' := Go(s, PushArrives(r));
            && s' == Step(s, PushArrives(r)) && s'.stage == s.stage
            && s'.leader.aggregatingVersion == s.leader.aggregatingVersion
  {
    hide Plus, Record, Aggregate.Valid;
  }

  lemma MoveHelps(s: System, f: Name)
    requires Fine(s) && Behind(s, f) && f in s.leader.sessions
    ensures Helps(s, Go(s, Move(s, f)), f)
  {
    hide Fine, Helps, Go, Move;
    BehindMeans(s, f);
    match s.clients[f]
    case NotJoined => JoinHelps(s, f);
    case Waiting(_, _) => PullHelps(s, f);
    case Training(_) => TrainHelps(s, f);
    case Pushing(r) =>
      if r.version < s.leader.sessions[f].latestVersion {
        AnswerHelps(s, f);
      } else {
        PushHelps(s, f);
      }
    case _ =>
  }

  // ---------------------------------------------------------------- the leader publishes

  /** The follower moves until its push is counted. */
  lemma {:induction false} CatchUp(s: System, f: Name) returns (more: seq<Action>)
    requires Fine(s) && Behind(s, f) && f in s.leader.sessions
    ensures var s' := Continue(s, more); Fine(s') && OnlyMoves(s, s', f) && f !in Unpushed(s'.leader)
    decreases Rank(s, f)
  {
    hide *;
    BehindMeans(s, f);
    MoveHelps(s, f);
    var a := Move(s, f);
    var s1 := Go(s, a);
    GoIsFine(s, a);
    HelpsMeans(s, s1, f);
    if Behind(s1, f) {
      var rest := CatchUp(s1, f);
      more := [a] + rest;
      ContinueFirst(s, a, rest);
      MovesTwice(s, s1, Continue(s1, rest), f);
    } else {
      more := [a];
      ContinueFirst(s, a, []);
      ContinueNone(s1);
      assert [a] + [] == [a];
      NoLongerBehind(s1, f);
    }
  }

  lemma HelpsMeans(s: System, s': System, f: Name)
    requires f in s.clients && f in s.leader.sessions && Helps(s, s', f)
    ensures OnlyMoves(s, s', f) && f in s'.clients && f in s'.leader.sessions && !s'.clients[f].Failed?
    ensures Behind(s', f) ==> Rank(s', f) < Rank(s, f)
  {
  }

  lemma NoLongerBehind(s: System, f: Name)
    requires !Behind(s, f) && f in s.clients && !s.clients[f].Failed?
    ensures f !in Unpushed(s.leader)
  {
  }

  lemma ContinueFirst(s: System, a: Action, rest: seq<Action>)
    ensures Continue(s, [a] + rest) == Continue(Go(s, a), rest)
  {
    hide Go;
    assert ([a] + rest)[1..] == rest;
  }

  lemma ContinueNone(s: System)
    ensures Continue(s, []) == s
  {
  }

  lemma MovesTwice(s: System, s1: System, s2: System, f: Name)
    requires OnlyMoves(s, s1, f) && OnlyMoves(s1, s2, f)
    ensures OnlyMoves(s, s2, f)
  {
  }

  /** Those still to push, of whom none has failed, are one fewer once one of them has caught up. */
  lemma OneFewer(s: System, s': System, f: Name)
    requires OnlyMoves(s, s', f) && f in Unpushed(s.leader) && f !in Unpushed(s'.leader)
    requires s.clients.Keys == s.leader.sessions.Keys
    requires forall g :: g in Unpushed(s.leader) ==> g in s.clients && !s.clients[g].Failed?
    ensures Unpushed(s'.leader) == Unpushed(s.leader) - {f}
    ensures forall g :: g in Unpushed(s'.leader) ==> g in s'.clients && !s'.clients[g].Failed?
  {
  }

  /** Everyone still to push catches up, and the leader publishes. */
  lemma {:induction false} EveryoneCatchesUp(s: System) returns (more: seq<Action>)
    requires Fine(s) && s.stage.Collecting?
    requires forall g :: g in Unpushed(s.leader) ==> g in s.clients && !s.clients[g].Failed?
    ensures Continue(s, more).leader.latest.version == s.leader.latest.version + 1
    decreases |Unpushed(s.leader)|
  {
    hide Fine, Continue, Unpushed, OnlyMoves;
    if Unpushed(s.leader) == {} {
      more := PublishNext(s);
    } else {
      var f :| f in Unpushed(s.leader);
      FineKeys(s);
      UnpushedSessions(s.leader, f);
      var first := CatchUp(s, f);
      var s1 := Continue(s, first);
      OneFewer(s, s1, f);
      MovesKeepStage(s, s1, f);
      var rest := EveryoneCatchesUp(s1);
      more := first + rest;
      ContinueMore(s, first, rest);
    }
  }

  lemma MovesKeepStage(s: System, s': System, f: Name)
    requires OnlyMoves(s, s', f)
    ensures s'.stage == s.stage && s'.leader.latest == s.leader.latest
  {
  }

  lemma UnpushedSessions(l: Leader, f: Name)
    requires f in Unpushed(l)
    ensures f in l.sessions
  {
  }

  lemma FineKeys(s: System)
    requires Fine(s)
    ensures s.clients.Keys == s.leader.sessions.Keys && s.ledger != [] && s.leader.aggregating.Valid()
    ensures s.leader.aggregatingVersion == s.leader.latest.version + 1
  {
    SafeKeys(s);
    SafeBasics(s);
    hide Safe;
  }

  lemma PublishNext(s: System) returns (more: seq<Action>)
    requires Fine(s) && s.stage.Collecting? && Unpushed(s.leader) == {}
    ensures Continue(s, more).leader.latest.version == s.leader.latest.version + 1
  {
    hide Fine, Continue, Unpushed, Aggregate.Valid, Mean;
    FineKeys(s);
    GoIsFine(s, LeaderChecks);
    var s1 := Go(s, LeaderChecks);
    FineKeys(s1);
    more := [LeaderChecks] + ([LeaderPublishes(0)] + []);
    ContinueFirst(s, LeaderChecks, [LeaderPublishes(0)] + []);
    ContinueFirst(s1, LeaderPublishes(0), []);
    ContinueNone(Go(s1, LeaderPublishes(0)));
  }

  // ---------------------------------------------------------------- or never does

  /** A follower that has failed before its push was counted stays as it is ... */
  lemma FailedStays(s: System, a: Action, f: Name)
    requires Safe(s) && f in s.clients && f in s.leader.sessions && s.clients[f].Failed?
    ensures var s' := Go(s, a);
            && f in s'.clients && f in s'.leader.sessions && s'.clients[f].Failed?
            && s'.leader.sessions[f].latestVersion == s.leader.sessions[f].latestVersion
            && s'.leader.sessions[f].trainEnd == s.leader.sessions[f].trainEnd
  {
    hide Safe, Aggregate.Valid, Mean, Plus, Record, Unpushed, Pull;
    if a.PushArrives? && Enabled(s, a) && Accepts(s.leader, a.request.name, a.request.version) {
      AcceptedIsCurrent(s, a.request);
    }
  }

  /** ... and no later version is ever published. */
  lemma {:induction false} NothingBeyond(s: System, more: seq<Action>, f: Name)
    requires Fine(s) && f in s.clients && f in s.leader.sessions && s.clients[f].Failed?
    requires !s.leader.sessions[f].trainEnd
    ensures Continue(s, more).leader.latest.version <= s.leader.sessions[f].latestVersion
    decreases |more|
  {
    hide Fine, Go;
    if more == [] {
      FineVersion(s, f);
    } else {
      FailedStays(s, more[0], f) by {
        FineIsSafe(s);
      }
      GoIsFine(s, more[0]);
      NothingBeyond(Go(s, more[0]), more[1..], f);
    }
  }

  lemma FineIsSafe(s: System)
    requires Fine(s)
    ensures Safe(s)
  {
  }

  lemma FineVersion(s: System, f: Name)
    requires Fine(s) && f in s.clients && f in s.leader.sessions && !s.leader.sessions[f].trainEnd
    ensures s.leader.latest.version <= s.leader.sessions[f].latestVersion
  {
    FollowerAt(s, f);
    hide Fine;
  }

  /** While the leader waits for pushes the next version can be published if and only if none of the followers still to
      push has failed: otherwise it waits for ever. */
  lemma NextVersionCanCome(followers: set<Name>, weights: Weights, now: int, actions: seq<Action>)
    requires After(followers, weights, now, actions).stage.Collecting?
    ensures var s := After(followers, weights, now, actions);
            && (forall f :: f in Unpushed(s.leader) ==> f in s.clients)
            && ((exists more :: Continue(s, more).leader.latest.version > s.leader.latest.version) <==>
                 forall f :: f in Unpushed(s.leader) ==> !s.clients[f].Failed?)
  {
    var s := After(followers, weights, now, actions);
    EveryRunIsSafe(followers, weights, now, actions);
    EveryRunKeepsPushes(followers, weights, now, actions);
    assert Fine(s);
    FineKeys(s);
    hide After, Fine, Continue;
    if forall f :: f in Unpushed(s.leader) ==> !s.clients[f].Failed? {
      var more := EveryoneCatchesUp(s);
    } else {
      var f :| f in Unpushed(s.leader) && s.clients[f].Failed?;
      UnpushedVersion(s, f);
      forall more ensures Continue(s, more).leader.latest.version <= s.leader.latest.version {
        NothingBeyond(s, more, f);
      }
    }
  }

  lemma UnpushedVersion(s: System, f: Name)
    requires Fine(s) && f in Unpushed(s.leader)
    ensures f in s.clients && f in s.leader.sessions && !s.leader.sessions[f].trainEnd
    ensures s.leader.sessions[f].latestVersion == s.leader.latest.version
  {
    FineKeys(s);
    FollowerAt(s, f);
    hide Safe;
  }

  // ---------------------------------------------------------------- the leader waits for everyone

  lemma JoinedStays(s: System, a: Action)
    requires s.stage.Joining? || forall f :: f in s.leader.sessions ==> s.leader.sessions[f].joined
    ensures var s' := Go(s, a);
            s'.stage.Joining? || forall f :: f in s'.leader.sessions ==> s'.leader.sessions[f].joined
  {
    hide Aggregate.Valid, Mean, Plus, Record, Unpushed, Pull;
  }

  /** The leader does not start before every follower has joined. */
  lemma {:induction false} EveryoneHasJoined(followers: set<Name>, weights: Weights, now: int, actions: seq<Action>)
    ensures var s := After(followers, weights, now, actions);
            s.stage.Joining? || forall f :: f in s.leader.sessions ==> s.leader.sessions[f].joined
  {
    if actions != [] {
      EveryoneHasJoined(followers, weights, now, actions[..|actions| - 1]);
      JoinedStays(After(followers, weights, now, actions[..|actions| - 1]), actions[|actions| - 1]);
      hide Step, Enabled, Aggregate.Valid;
    }
  }
}
