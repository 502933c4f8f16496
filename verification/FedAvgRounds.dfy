/** Runs of federated averaging: one leader, its followers, and calls that may be repeated or lose their reply. */
module FedAvgRounds {
  import opened FedAvg

  datatype PushRequest = PushRequest(name: Name, version: nat, isEnd: bool, weights: Weights)

  /** `into` is the version an accepted push counts for. */
  datatype PushReply = PushReply(name: Name, version: nat, ok: bool, into: nat)

  datatype PullRequest = PullRequest(name: Name, version: nat, isLast: bool)

  /** An answer with a model, or an error.  A pull that is not ready is asked again, so there is nothing to answer. */
  datatype PullReply = PullReply(name: Name, version: nat, isLast: bool, ok: bool, model: Model)

  /** Where a follower's program stands.  It fails for good when any of its calls is answered with an error. */
  datatype Client =
    | NotJoined
    | Waiting(version: nat, isLast: bool)
    | Training(version: nat)
    | Pushing(request: PushRequest)
    | Failed
    | Finished(model: Model)

  /** Where the leader's program stands: it has summed its own weights and waits for pushes, has seen that all have
      pushed, has published and looks again because its training has ended, or has left the training loop. */
  datatype Stage = Joining | Working | Collecting(isEnd: bool) | Decided(isEnd: bool) | Looking | Stopped | Quitted

  /** `sent`, `answers`, `asked` and `pulls` are all pushes, pulls and replies ever sent, each of which may still be in
      flight.  `ledger[v]` lists the contributions to version `v`, and `published[v]` is version `v`. */
  datatype System = System(leader: Leader, stage: Stage, clients: map<Name, Client>, sent: set<PushRequest>,
                           answers: set<PushReply>, asked: set<PullRequest>, pulls: set<PullReply>,
                           published: seq<Model>,
                           ledger: seq<seq<Contribution>>)

  datatype Action =
    | JoinArrives(name: Name, delivered: bool)
    | QuitArrives(name: Name)
    | LeaderStarts
    | LeaderSums(isEnd: bool, weights: Weights)
    | LeaderChecks
    | LeaderPublishes(now: int)
    | LeaderLooks
    | LeaderQuits
    | FollowerPushes(name: Name, isEnd: bool, weights: Weights)
    | PushArrives(request: PushRequest)
    | PushReturns(answer: PushReply)
    | FollowerAsks(name: Name)
    | PullArrives(pullRequest: PullRequest)
    | PullReturns(pull: PullReply)

  function Start(followers: set<Name>, weights: Weights, now: int): System {
    System(Leader(map f | f in followers :: Session(false, false, false, 0), Model(weights, 0, now), 1, EMPTY, false),
           Joining, map f | f in followers :: NotJoined, {}, {}, {}, {}, [Model(weights, 0, now)], [[], []])
  }

  predicate Enabled(s: System, a: Action) {
    match a
    case JoinArrives(f, _) => f in s.clients
    case QuitArrives(f) => f in s.clients && s.clients[f].Finished?
    case LeaderStarts => s.stage.Joining? && forall f :: f in s.leader.sessions ==> s.leader.sessions[f].joined
    case LeaderSums(_, _) => s.stage.Working?
    case LeaderChecks => s.stage.Collecting? && Unpushed(s.leader) == {}
    case LeaderPublishes(_) => s.stage.Decided?
    case LeaderLooks => s.stage.Looking?
    case LeaderQuits => s.stage.Stopped?
    case FollowerPushes(f, _, _) => f in s.clients && s.clients[f].Training?
    case PushArrives(r) => r in s.sent
    case PushReturns(p) =>
      p in s.answers && p.name in s.clients && s.clients[p.name].Pushing?
        && s.clients[p.name].request.version == p.version
    case FollowerAsks(f) => f in s.clients && s.clients[f].Waiting?
    case PullArrives(r) => r in s.asked
    case PullReturns(p) => p in s.pulls && p.name in s.clients && s.clients[p.name] == Waiting(p.version, p.isLast)
  }

  /** Adds a contribution to the version being aggregated. */
  function Record(ledger: seq<seq<Contribution>>, c: Contribution): seq<seq<Contribution>>
    requires ledger != []
  {
    ledger[|ledger| - 1 := ledger[|ledger| - 1] + [c]]
  }

  ghost function Step(s: System, a: Action): System
    requires Enabled(s, a) && s.ledger != [] && s.leader.aggregating.Valid()
  {
    match a
    case JoinArrives(f, delivered) =>
      var (leader, reply) := Join(s.leader, f);
      s.(leader := leader,
         clients := if delivered && s.clients[f].NotJoined?
                    then s.clients[f := if reply == Ok then Waiting(0, false) else Failed] else s.clients)
    case QuitArrives(f) =>
      var (leader, reply) := Quit(s.leader, f);
      s.(leader := leader, clients := if reply == Ok then s.clients else s.clients[f := Failed])
    case LeaderStarts => s.(stage := Working)
    case LeaderSums(isEnd, weights) =>
      s.(leader := s.leader.(aggregating := Plus(s.leader.aggregating, weights)), stage := Collecting(isEnd),
         ledger := Record(s.ledger, Contribution(true, 0, weights)))
    case LeaderChecks => s.(stage := Decided(s.stage.isEnd))
    case LeaderPublishes(now) =>
      var leader := Publish(s.leader, now);
      s.(leader := leader, stage := if s.stage.isEnd then Looking else Working,
         published := s.published + [leader.latest],
         ledger := s.ledger + [[]])
    case LeaderLooks => s.(stage := if Unpushed(s.leader) == {} then Stopped else Collecting(true))
    case LeaderQuits => s.(stage := Quitted, leader := s.leader.(isQuitted := true))
    case FollowerPushes(f, isEnd, weights) =>
      var r := PushRequest(f, s.clients[f].version, isEnd, weights);
      s.(clients := s.clients[f := Pushing(r)], sent := s.sent + {r})
    case PushArrives(r) =>
      var (leader, reply) := Push(s.leader, r.name, r.weights, r.version, r.isEnd);
      s.(leader := leader,
         answers := s.answers + {PushReply(r.name, r.version, reply == Ok, s.leader.aggregatingVersion)},
         ledger := if reply == Ok then Record(s.ledger, Contribution(false, r.name, r.weights)) else s.ledger)
    case PushReturns(p) =>
      s.(clients := s.clients[p.name := if p.ok then Waiting(p.into, s.clients[p.name].request.isEnd) else Failed])
    case FollowerAsks(f) =>
      s.(asked := s.asked + {PullRequest(f, s.clients[f].version, s.clients[f].isLast)})
    case PullArrives(r) =>
      var reply := Pull(s.leader, r.name, r.version, r.isLast);
      if reply == NotReady then s
      else s.(pulls := s.pulls + {PullReply(r.name, r.version, r.isLast, reply == Ok, s.leader.latest)})
    case PullReturns(p) =>
      s.(clients := s.clients[p.name := if !p.ok then Failed else if p.isLast then Finished(p.model)
                                        else Training(p.model.version)])
  }

  // ---------------------------------------------------------------- what every run keeps

  /** How often a follower (or the leader) contributed. */
  function Times(cs: seq<Contribution>, isLeader: bool, f: Name): nat {
    if cs == [] then 0
    else
      Times(cs[..|cs| - 1], isLeader, f)
        + if cs[|cs| - 1].isLeader == isLeader && (isLeader || cs[|cs| - 1].name == f) then 1 else 0
  }

  /** Version `v` is the mean of the contributions recorded for it. */
  ghost predicate IsMean(cs: seq<Contribution>, m: Model) {
    m.weights == map n | n in Names(cs) && CountOf(cs, n) > 0 :: TotalOf(cs, n) / CountOf(cs, n) as real
  }

  /** The leader's versions, accumulator and history agree. */
  ghost predicate BooksOk(latest: Model, aggregatingVersion: nat, aggregating: Aggregate, published: seq<Model>,
                          ledger: seq<seq<Contribution>>) {
    && aggregatingVersion == latest.version + 1 == |published| && |ledger| == |published| + 1
    && aggregating == Aggregated(ledger[aggregatingVersion]) && aggregating.Valid()
    && published[latest.version] == latest
    && (forall v :: 0 <= v < |published| ==> published[v].version == v)
    && (forall v :: 1 <= v < |published| ==> IsMean(ledger[v], published[v]))
  }

  /** A follower contributed once to each version up to the one it pushed last, and to no other. */
  ghost predicate Contributed(ledger: seq<seq<Contribution>>, f: Name, last: nat) {
    forall v :: 0 <= v < |ledger| ==> Times(ledger[v], false, f) == if 1 <= v <= last then 1 else 0
  }

  ghost predicate LeaderOnce(ledger: seq<seq<Contribution>>, stage: Stage) {
    && (forall v :: 0 <= v < |ledger| ==> Times(ledger[v], true, 0) <= 1)
    && (!stage.Collecting? && !stage.Decided? ==> ledger == [] || Times(ledger[|ledger| - 1], true, 0) == 0)
  }

  /** A follower's program and its session at the leader. */
  ghost predicate ClientOk(e: Session, c: Client, latest: nat) {
    && e.latestVersion <= latest + 1 && (!e.trainEnd ==> e.latestVersion >= latest)
    && match c
       case NotJoined => e.latestVersion == 0 && !e.trainEnd
       case Waiting(version, isLast) => e.latestVersion == version && e.trainEnd == isLast
       case Training(version) => e.latestVersion == version <= latest && !e.trainEnd
       case Pushing(r) =>
         && r.version <= latest && r.version <= e.latestVersion
         && (r.version == e.latestVersion ==> !e.trainEnd)
       case Failed => true
       case Finished(_) => e.trainEnd
  }

  /** Of a follower's requests only the current one can still be accepted. */
  ghost predicate SentOk(f: Name, e: Session, c: Client, sent: set<PushRequest>) {
    forall r :: r in sent && r.name == f ==>
      r.version < e.latestVersion || (r.version == e.latestVersion && c == Pushing(r))
  }

  ghost predicate AnswersOk(f: Name, e: Session, c: Client, answers: set<PushReply>) {
    forall p :: p in answers && p.name == f ==>
      && p.version < e.latestVersion
      && (p.ok && c.Pushing? && c.request.version == p.version ==>
            p.into == e.latestVersion && e.trainEnd == c.request.isEnd)
  }

  ghost predicate FollowerOk(f: Name, e: Session, c: Client, latest: nat, sent: set<PushRequest>,
                             answers: set<PushReply>) {
    ClientOk(e, c, latest) && SentOk(f, e, c, sent) && AnswersOk(f, e, c, answers)
      && (!c.NotJoined? ==> e.joined) && (e.quitted ==> c.Finished?)
  }

  ghost predicate FollowersOk(l: Leader, clients: map<Name, Client>, sent: set<PushRequest>, answers: set<PushReply>,
                              ledger: seq<seq<Contribution>>) {
    && clients.Keys == l.sessions.Keys
    && (forall f :: f in clients ==> FollowerOk(f, l.sessions[f], clients[f], l.latest.version, sent, answers))
    && (forall f :: f in clients ==> Contributed(ledger, f, l.sessions[f].latestVersion))
  }

  /** Pulls have returned the version asked for, or the final model once the leader has quitted. */
  ghost predicate PullsOk(pulls: set<PullReply>, quitted: bool, latest: Model, published: seq<Model>) {
    forall p :: p in pulls && p.ok ==>
      if p.isLast then quitted && p.model == latest
      else p.version < |published| && p.model == published[p.version] && p.model.version == p.version
  }

  /** Only followers that have joined ask for a model. */
  ghost predicate AskedOk(asked: set<PullRequest>, sessions: map<Name, Session>) {
    forall r :: r in asked ==> r.name in sessions && sessions[r.name].joined
  }

  /** A pull is answered with an error only after its follower has finished, so that the answer comes too late. */
  ghost predicate RefusedOk(pulls: set<PullReply>, clients: map<Name, Client>) {
    forall p :: p in pulls && !p.ok ==> p.name in clients && clients[p.name].Finished?
  }

  ghost predicate FinishedOk(clients: map<Name, Client>, quitted: bool, latest: Model) {
    forall f :: f in clients && clients[f].Finished? ==> quitted && clients[f].model == latest
  }

  /** The leader has left the training loop. */
  predicate Over(stage: Stage) {
    stage.Stopped? || stage.Quitted?
  }

  ghost predicate StageOk(l: Leader, stage: Stage) {
    && (l.isQuitted <==> stage.Quitted?)
    && (stage.Decided? || Over(stage) ==> Unpushed(l) == {})
  }

  ghost predicate Safe(s: System) {
    && BooksOk(s.leader.latest, s.leader.aggregatingVersion, s.leader.aggregating, s.published, s.ledger)
    && LeaderOnce(s.ledger, s.stage)
    && FollowersOk(s.leader, s.clients, s.sent, s.answers, s.ledger)
    && PullsOk(s.pulls, s.leader.isQuitted, s.leader.latest, s.published)
    && FinishedOk(s.clients, s.leader.isQuitted, s.leader.latest)
    && StageOk(s.leader, s.stage) && AskedOk(s.asked, s.leader.sessions) && RefusedOk(s.pulls, s.clients)
  }

  lemma SafeBasics(s: System)
    requires Safe(s)
    ensures s.ledger != [] && s.leader.aggregating.Valid() && s.leader.aggregatingVersion == s.leader.latest.version + 1
    ensures |s.ledger| == s.leader.latest.version + 2 && |s.published| == s.leader.latest.version + 1
  {
  }

  lemma FollowerAt(s: System, f: Name)
    requires Safe(s) && f in s.clients
    ensures f in s.leader.sessions && Contributed(s.ledger, f, s.leader.sessions[f].latestVersion)
    ensures FollowerOk(f, s.leader.sessions[f], s.clients[f], s.leader.latest.version, s.sent, s.answers)
  {
    hide BooksOk, LeaderOnce, PullsOk, FinishedOk, StageOk, FollowerOk, Contributed;
  }

  /** Changing one follower's program, or its session's flags, keeps the others. */
  lemma OneFollower(l: Leader, clients: map<Name, Client>, sent: set<PushRequest>, answers: set<PushReply>,
                    ledger: seq<seq<Contribution>>, f: Name, e: Session, c: Client)
    requires FollowersOk(l, clients, sent, answers, ledger) && f in clients
    requires f in l.sessions ==> e.latestVersion == l.sessions[f].latestVersion
    requires FollowerOk(f, e, c, l.latest.version, sent, answers)
    ensures FollowersOk(l.(sessions := l.sessions[f := e]), clients[f := c], sent, answers, ledger)
  {
    hide FollowerOk, Contributed;
  }

  // ---------------------------------------------------------------- the books

  lemma TimesRecorded(ledger: seq<seq<Contribution>>, c: Contribution, v: nat, isLeader: bool, f: Name)
    requires ledger != [] && v < |ledger|
    ensures Times(Record(ledger, c)[v], isLeader, f)
         == Times(ledger[v], isLeader, f)
            + if v == |ledger| - 1 && c.isLeader == isLeader && (isLeader || c.name == f) then 1 else 0
  {
    var last := ledger[|ledger| - 1];
    assert (last + [c])[..|last|] == last;
  }

  /** A contribution goes to the version being aggregated and leaves the published ones alone. */
  lemma RecordKeepsBooks(latest: Model, version: nat, aggregating: Aggregate, published: seq<Model>,
                         ledger: seq<seq<Contribution>>, c: Contribution)
    requires BooksOk(latest, version, aggregating, published, ledger)
    ensures BooksOk(latest, version, Plus(aggregating, c.weights), published, Record(ledger, c))
  {
    var current := ledger[version];
    SumIsAggregated(current, c);
    AggregatedIsValid(current + [c]);
    hide Aggregated, Plus, IsMean;
    var after := Record(ledger, c);
    forall v | 1 <= v < |published| ensures IsMean(after[v], published[v]) {
      assert after[v] == ledger[v];
    }
  }

  lemma MeanIsMean(cs: seq<Contribution>, m: Model)
    requires Aggregated(cs).Valid() && m.weights == Mean(Aggregated(cs))
    ensures IsMean(cs, m)
  {
    forall n | n in Names(cs) ensures CountOf(cs, n) > 0 {
      NamesAreCounted(cs, n);
    }
    assert m.weights == map n | n in Names(cs) && CountOf(cs, n) > 0 :: TotalOf(cs, n) / CountOf(cs, n) as real;
  }

  lemma PublishKeepsBooks(l: Leader, published: seq<Model>, ledger: seq<seq<Contribution>>, now: int)
    requires BooksOk(l.latest, l.aggregatingVersion, l.aggregating, published, ledger)
    ensures var l' := Publish(l, now);
            BooksOk(l'.latest, l'.aggregatingVersion, l'.aggregating, published + [l'.latest], ledger + [[]])
  {
    var l' := Publish(l, now);
    MeanIsMean(ledger[l.aggregatingVersion], l'.latest);
    AggregatedIsValid([]);
    assert EMPTY == Aggregated([]);
    hide Mean, Aggregated, IsMean;
    forall v | 1 <= v < |published| + 1 ensures IsMean((ledger + [[]])[v], (published + [l'.latest])[v]) {
    }
  }

  // ---------------------------------------------------------------- one follower's push

  /** A request that is still accepted is its follower's current one and comes from the latest published version. */
  lemma AcceptedIsCurrent(s: System, r: PushRequest)
    requires Safe(s) && r in s.sent && Accepts(s.leader, r.name, r.version)
    ensures r.name in s.clients && s.clients[r.name] == Pushing(r)
    ensures r.version == s.leader.latest.version && !s.leader.sessions[r.name].trainEnd
    ensures s.leader.sessions[r.name].latestVersion == r.version
  {
    assert r.name in s.clients by {
      hide BooksOk, LeaderOnce, PullsOk, FinishedOk, StageOk, FollowerOk, Contributed;
    }
    FollowerAt(s, r.name);
    hide Safe;
  }

  /** A request that is not accepted has already been counted. */
  lemma RejectedWasCounted(s: System, r: PushRequest)
    requires Safe(s) && r in s.sent && r.name in s.clients && !Accepts(s.leader, r.name, r.version)
    ensures r.name in s.leader.sessions && r.version < s.leader.sessions[r.name].latestVersion
  {
    FollowerAt(s, r.name);
    hide Safe;
  }

  /** Nothing slips in between the leader seeing that all have pushed and its aggregating or stopping. */
  lemma NoPushSlipsIn(s: System, r: PushRequest)
    requires Safe(s) && (s.stage.Decided? || Over(s.stage)) && r in s.sent
    ensures !Accepts(s.leader, r.name, r.version)
  {
    if Accepts(s.leader, r.name, r.version) {
      AcceptedIsCurrent(s, r);
      SafeBasics(s);
      hide BooksOk, LeaderOnce, PullsOk, FinishedOk, FollowersOk;
      StillUnpushed(s.leader, r.name);
    }
  }

  lemma StillUnpushed(l: Leader, f: Name)
    requires f in l.sessions && !l.sessions[f].trainEnd && l.sessions[f].latestVersion < l.aggregatingVersion
    ensures Unpushed(l) != {}
  {
    assert f in Unpushed(l);
  }

  lemma FollowerAccepted(f: Name, e: Session, latest: nat, sent: set<PushRequest>, answers: set<PushReply>,
                         r: PushRequest)
    requires FollowerOk(f, e, Pushing(r), latest, sent, answers) && r in sent && r.name == f
    requires e.latestVersion == r.version == latest
    ensures FollowerOk(f, e.(latestVersion := latest + 1, trainEnd := r.isEnd), Pushing(r), latest, sent,
                       answers + {PushReply(f, r.version, true, latest + 1)})
  {
  }

  lemma OthersKeep(f: Name, e: Session, c: Client, latest: nat, sent: set<PushRequest>, answers: set<PushReply>,
                   p: PushReply)
    requires FollowerOk(f, e, c, latest, sent, answers) && (p.name == f ==> p.version < e.latestVersion && !p.ok)
    ensures FollowerOk(f, e, c, latest, sent, answers + {p})
  {
  }

  lemma PushKeepsFollowers(s: System, r: PushRequest)
    requires Safe(s) && Enabled(s, PushArrives(r)) && s.ledger != [] && s.leader.aggregating.Valid()
    ensures var s' := Step(s, PushArrives(r)); FollowersOk(s'.leader, s'.clients, s'.sent, s'.answers, s'.ledger)
  {
    var s' := Step(s, PushArrives(r));
    assert s'.clients.Keys == s'.leader.sessions.Keys by {
      if r.name in s.leader.sessions {
        hide FollowerOk, Contributed, BooksOk, LeaderOnce, PullsOk, FinishedOk, StageOk;
      }
    }
    forall f | f in s'.clients
      ensures FollowerOk(f, s'.leader.sessions[f], s'.clients[f], s'.leader.latest.version, s'.sent, s'.answers)
      ensures Contributed(s'.ledger, f, s'.leader.sessions[f].latestVersion)
    {
      FollowerAt(s, f);
      SafeBasics(s);
      if Accepts(s.leader, r.name, r.version) {
        AcceptOne(s, r, f);
      } else {
        if f == r.name {
          RejectedWasCounted(s, r);
        }
        hide Safe;
        OthersKeep(f, s.leader.sessions[f], s.clients[f], s.leader.latest.version, s.sent, s.answers,
                   PushReply(r.name, r.version, false, s.leader.aggregatingVersion));
      }
    }
    hide Safe, Enabled, Step, FollowerOk, Contributed;
  }

  /** What an accepted push changes. */
  lemma AcceptedStep(s: System, r: PushRequest)
    requires Enabled(s, PushArrives(r)) && s.ledger != [] && s.leader.aggregating.Valid()
    requires Accepts(s.leader, r.name, r.version)
    ensures r in s.sent && r.name in s.leader.sessions
    ensures var s' := Step(s, PushArrives(r));
            var e := s.leader.sessions[r.name];
            && s'.leader.sessions
               == s.leader.sessions[r.name := e.(latestVersion := s.leader.aggregatingVersion, trainEnd := r.isEnd)]
            && s'.leader.latest == s.leader.latest && s'.clients == s.clients && s'.sent == s.sent
            && s'.answers == s.answers + {PushReply(r.name, r.version, true, s.leader.aggregatingVersion)}
            && s'.ledger == Record(s.ledger, Contribution(false, r.name, r.weights))
  {
    hide Plus, Record, Aggregate.Valid;
  }

  /** An accepted push, seen from any one follower. */
  lemma AcceptOne(s: System, r: PushRequest, f: Name)
    requires Safe(s) && Enabled(s, PushArrives(r)) && s.ledger != [] && s.leader.aggregating.Valid()
    requires Accepts(s.leader, r.name, r.version) && f in s.clients
    ensures var s' := Step(s, PushArrives(r));
            && f in s'.leader.sessions && f in s'.clients
            && FollowerOk(f, s'.leader.sessions[f], s'.clients[f], s'.leader.latest.version, s'.sent, s'.answers)
            && Contributed(s'.ledger, f, s'.leader.sessions[f].latestVersion)
  {
    hide *;
    AcceptedStep(s, r);
    AcceptedIsCurrent(s, r);
    FollowerAt(s, f);
    SafeBasics(s);
    var latest := s.leader.latest.version;
    RecordContributes(s.ledger, Contribution(false, r.name, r.weights), f, s.leader.sessions[f].latestVersion, latest);
    if f == r.name {
      FollowerAccepted(f, s.leader.sessions[f], latest, s.sent, s.answers, r);
    } else {
      OthersKeep(f, s.leader.sessions[f], s.clients[f], latest, s.sent, s.answers,
                 PushReply(r.name, r.version, true, s.leader.aggregatingVersion));
    }
  }

  lemma RecordContributes(ledger: seq<seq<Contribution>>, c: Contribution, f: Name, last: nat, latest: nat)
    requires |ledger| == latest + 2 && Contributed(ledger, f, last)
    requires !c.isLeader && c.name == f ==> last == latest
    ensures Contributed(Record(ledger, c), f, if !c.isLeader && c.name == f then latest + 1 else last)
  {
    forall v | 0 <= v < |ledger| {
      TimesRecorded(ledger, c, v, false, f);
    }
  }

  // ---------------------------------------------------------------- every step is safe

  lemma RecordKeepsLeaderOnce(ledger: seq<seq<Contribution>>, stage: Stage, stage': Stage, c: Contribution)
    requires ledger != [] && LeaderOnce(ledger, stage)
    requires if c.isLeader then !stage.Collecting? && !stage.Decided? && stage'.Collecting? else stage' == stage
    ensures LeaderOnce(Record(ledger, c), stage')
  {
    forall v | 0 <= v < |ledger| {
      TimesRecorded(ledger, c, v, true, 0);
    }
  }

  lemma PushIsSafe(s: System, r: PushRequest)
    requires Safe(s) && Enabled(s, PushArrives(r)) && s.ledger != [] && s.leader.aggregating.Valid()
    ensures Safe(Step(s, PushArrives(r)))
  {
    hide BooksOk, LeaderOnce, FollowersOk, PullsOk, FinishedOk, AskedOk, RefusedOk, Record, Plus, Aggregate.Valid,
         Unpushed;
    var c := Contribution(false, r.name, r.weights);
    RecordKeepsBooks(s.leader.latest, s.leader.aggregatingVersion, s.leader.aggregating, s.published, s.ledger, c);
    PushKeepsFollowers(s, r);
    RecordKeepsLeaderOnce(s.ledger, s.stage, s.stage, c);
    if s.stage.Decided? || Over(s.stage) {
      NoPushSlipsIn(s, r);
    }
    if Accepts(s.leader, r.name, r.version) {
      var e := s.leader.sessions[r.name];
      AskedKeeps(s.asked, s.leader.sessions, r.name,
                 e.(latestVersion := s.leader.aggregatingVersion, trainEnd := r.isEnd));
    }
  }

  lemma SumIsSafe(s: System, isEnd: bool, weights: Weights)
    requires Safe(s) && Enabled(s, LeaderSums(isEnd, weights)) && s.ledger != [] && s.leader.aggregating.Valid()
    ensures Safe(Step(s, LeaderSums(isEnd, weights)))
  {
    var c := Contribution(true, 0, weights);
    RecordKeepsBooks(s.leader.latest, s.leader.aggregatingVersion, s.leader.aggregating, s.published, s.ledger, c);
    RecordKeepsLeaderOnce(s.ledger, s.stage, Collecting(isEnd), c);
    var l := s.leader.(aggregating := Plus(s.leader.aggregating, weights));
    assert FollowersOk(l, s.clients, s.sent, s.answers, Record(s.ledger, c)) by {
      forall f | f in s.clients
        ensures FollowerOk(f, l.sessions[f], s.clients[f], l.latest.version, s.sent, s.answers)
        ensures Contributed(Record(s.ledger, c), f, l.sessions[f].latestVersion)
      {
        FollowerAt(s, f);
        SafeBasics(s);
        hide Safe, FollowerOk, Contributed;
        RecordContributes(s.ledger, c, f, s.leader.sessions[f].latestVersion, s.leader.latest.version);
      }
      hide FollowerOk, Contributed, BooksOk, LeaderOnce, PullsOk, FinishedOk, StageOk;
    }
    hide BooksOk, LeaderOnce, FollowersOk, PullsOk, FinishedOk, Record, Plus, Aggregate.Valid;
  }

  /** Publishing when nobody is left to push. */
  lemma FollowerPublished(f: Name, e: Session, c: Client, latest: nat, sent: set<PushRequest>, answers: set<PushReply>)
    requires FollowerOk(f, e, c, latest, sent, answers) && (e.trainEnd || e.latestVersion == latest + 1)
    ensures FollowerOk(f, e, c, latest + 1, sent, answers)
  {
  }

  lemma PublishIsSafe(s: System, now: int)
    requires Safe(s) && Enabled(s, LeaderPublishes(now)) && s.ledger != [] && s.leader.aggregating.Valid()
    ensures Safe(Step(s, LeaderPublishes(now)))
  {
    PublishKeepsBooks(s.leader, s.published, s.ledger, now);
    var l := Publish(s.leader, now);
    SafeBasics(s);
    assert FollowersOk(l, s.clients, s.sent, s.answers, s.ledger + [[]]) by {
      forall f | f in s.clients
        ensures FollowerOk(f, l.sessions[f], s.clients[f], l.latest.version, s.sent, s.answers)
        ensures Contributed(s.ledger + [[]], f, l.sessions[f].latestVersion)
      {
        PublishOne(s, f);
      }
      hide FollowerOk, Contributed, BooksOk, LeaderOnce, PullsOk, FinishedOk, StageOk;
    }
    assert PullsOk(s.pulls, false, l.latest, s.published + [l.latest]) by {
      hide FollowersOk, BooksOk, LeaderOnce, FinishedOk;
    }
    assert FinishedOk(s.clients, false, l.latest) by {
      hide FollowersOk, BooksOk, LeaderOnce, PullsOk;
    }
    hide BooksOk, FollowersOk, PullsOk, FinishedOk, Aggregate.Valid, Unpushed, Mean;
  }

  lemma PublishOne(s: System, f: Name)
    requires Safe(s) && s.stage.Decided? && f in s.clients
    ensures f in s.leader.sessions
    ensures FollowerOk(f, s.leader.sessions[f], s.clients[f], s.leader.latest.version + 1, s.sent, s.answers)
    ensures Contributed(s.ledger + [[]], f, s.leader.sessions[f].latestVersion)
  {
    var e := s.leader.sessions[f];
    FollowerAt(s, f);
    SafeBasics(s);
    if !e.trainEnd && e.latestVersion < s.leader.aggregatingVersion {
      StillUnpushed(s.leader, f);
      assert false by {
        hide FollowersOk, BooksOk, LeaderOnce, PullsOk, FinishedOk;
      }
    }
    hide Safe;
    FollowerPublished(f, e, s.clients[f], s.leader.latest.version, s.sent, s.answers);
  }

  lemma LeaderTurnIsSafe(s: System, a: Action)
    requires Safe(s) && Enabled(s, a) && s.ledger != [] && s.leader.aggregating.Valid()
    requires a.LeaderStarts? || a.LeaderChecks? || a.LeaderLooks? || a.LeaderQuits?
    ensures Safe(Step(s, a))
  {
    if a.LeaderQuits? {
      assert FollowersOk(s.leader.(isQuitted := true), s.clients, s.sent, s.answers, s.ledger) by {
        hide BooksOk, LeaderOnce, PullsOk, FinishedOk, StageOk;
      }
      assert PullsOk(s.pulls, true, s.leader.latest, s.published) by {
        hide BooksOk, LeaderOnce, FollowersOk, FinishedOk, StageOk;
      }
      assert FinishedOk(s.clients, true, s.leader.latest) by {
        hide BooksOk, LeaderOnce, FollowersOk, PullsOk, StageOk;
      }
    }
    hide BooksOk, FollowersOk, PullsOk, FinishedOk, Aggregate.Valid, Times;
  }

  lemma SameUnpushed(l: Leader, f: Name, e: Session)
    requires f in l.sessions && e.trainEnd == l.sessions[f].trainEnd && e.latestVersion == l.sessions[f].latestVersion
    ensures Unpushed(l.(sessions := l.sessions[f := e])) == Unpushed(l)
  {
  }

  lemma FinishedKeeps(clients: map<Name, Client>, quitted: bool, latest: Model, f: Name, c: Client)
    requires FinishedOk(clients, quitted, latest) && f in clients && (c.Finished? ==> quitted && c.model == latest)
    ensures FinishedOk(clients[f := c], quitted, latest)
  {
  }

  lemma AskedKeeps(asked: set<PullRequest>, sessions: map<Name, Session>, f: Name, e: Session)
    requires AskedOk(asked, sessions) && (f in sessions && sessions[f].joined ==> e.joined)
    ensures AskedOk(asked, sessions[f := e])
  {
  }

  lemma RefusedKeeps(pulls: set<PullReply>, clients: map<Name, Client>, f: Name, c: Client)
    requires RefusedOk(pulls, clients) && (f in clients && clients[f].Finished? ==> c.Finished?)
    ensures RefusedOk(pulls, clients[f := c])
  {
  }

  /** A follower that registers, and learns of it or not. */
  lemma FollowerJoins(f: Name, e: Session, c: Client, latest: nat, sent: set<PushRequest>, answers: set<PushReply>,
                      delivered: bool)
    requires FollowerOk(f, e, c, latest, sent, answers)
    ensures FollowerOk(f, e.(joined := true), if delivered && !e.quitted && c.NotJoined? then Waiting(0, false) else c,
                       latest, sent, answers)
  {
  }

  lemma JoinStep(s: System, f: Name, delivered: bool)
    requires Enabled(s, JoinArrives(f, delivered)) && s.ledger != [] && s.leader.aggregating.Valid()
    requires f in s.leader.sessions
    requires s.leader.sessions[f].quitted ==> s.leader.sessions[f].joined && s.clients[f].Finished?
    ensures var e, c := s.leader.sessions[f], s.clients[f];
            var c' := if delivered && !e.quitted && c.NotJoined? then Waiting(0, false) else c;
            var l' := s.leader.(sessions := s.leader.sessions[f := e.(joined := true)]);
            Step(s, JoinArrives(f, delivered)) == s.(leader := l', clients := s.clients[f := c'])
  {
    var e, c := s.leader.sessions[f], s.clients[f];
    assert s.leader.sessions[f := e] == s.leader.sessions && s.clients[f := c] == s.clients;
    hide Aggregate.Valid;
  }

  lemma JoinIsSafe(s: System, f: Name, delivered: bool)
    requires Safe(s) && Enabled(s, JoinArrives(f, delivered)) && s.ledger != [] && s.leader.aggregating.Valid()
    ensures Safe(Step(s, JoinArrives(f, delivered)))
  {
    FollowerAt(s, f);
    JoinStep(s, f, delivered);
    hide BooksOk, LeaderOnce, FollowersOk, PullsOk, FinishedOk, Aggregate.Valid, Unpushed, Contributed, FollowerOk;
    hide Step, Enabled;
    var e, c := s.leader.sessions[f], s.clients[f];
    var c' := if delivered && !e.quitted && c.NotJoined? then Waiting(0, false) else c;
    FollowerJoins(f, e, c, s.leader.latest.version, s.sent, s.answers, delivered);
    OneFollower(s.leader, s.clients, s.sent, s.answers, s.ledger, f, e.(joined := true), c');
    SameUnpushed(s.leader, f, e.(joined := true));
    FinishedHere(s, f);
    FinishedKeeps(s.clients, s.leader.isQuitted, s.leader.latest, f, c');
    AskedKeeps(s.asked, s.leader.sessions, f, e.(joined := true));
    RefusedKeeps(s.pulls, s.clients, f, c');
  }

  lemma FinishedHere(s: System, f: Name)
    requires Safe(s) && f in s.clients
    ensures s.clients[f].Finished? ==> s.leader.isQuitted && s.clients[f].model == s.leader.latest
  {
    hide BooksOk, LeaderOnce, FollowersOk, PullsOk, StageOk;
  }

  lemma QuitIsSafe(s: System, f: Name)
    requires Safe(s) && Enabled(s, QuitArrives(f)) && s.ledger != [] && s.leader.aggregating.Valid()
    ensures Safe(Step(s, QuitArrives(f)))
  {
    FollowerAt(s, f);
    var e, c := s.leader.sessions[f], s.clients[f];
    var e' := e.(quitted := true);
    assert FollowerOk(f, e', c, s.leader.latest.version, s.sent, s.answers);
    assert s.clients[f := c] == s.clients;
    hide FollowerOk;
    OneFollower(s.leader, s.clients, s.sent, s.answers, s.ledger, f, e', c);
    SameUnpushed(s.leader, f, e');
    AskedKeeps(s.asked, s.leader.sessions, f, e');
    hide BooksOk, LeaderOnce, FollowersOk, PullsOk, FinishedOk, Aggregate.Valid, Unpushed;
  }

  /** A new request is its follower's current one. */
  lemma MoreSent(f: Name, e: Session, c: Client, latest: nat, sent: set<PushRequest>, answers: set<PushReply>,
                 r: PushRequest)
    requires FollowerOk(f, e, c, latest, sent, answers) && (f == r.name ==> c == Training(r.version))
    ensures FollowerOk(f, e, if f == r.name then Pushing(r) else c, latest, sent + {r}, answers)
  {
  }

  lemma MoreSentAll(l: Leader, clients: map<Name, Client>, sent: set<PushRequest>, answers: set<PushReply>,
                    ledger: seq<seq<Contribution>>, r: PushRequest)
    requires FollowersOk(l, clients, sent, answers, ledger)
    requires r.name in clients && clients[r.name] == Training(r.version)
    ensures FollowersOk(l, clients[r.name := Pushing(r)], sent + {r}, answers, ledger)
  {
    var clients' := clients[r.name := Pushing(r)];
    forall g | g in clients'
      ensures g in l.sessions && FollowerOk(g, l.sessions[g], clients'[g], l.latest.version, sent + {r}, answers)
    {
      hide FollowerOk, Contributed;
      MoreSent(g, l.sessions[g], clients[g], l.latest.version, sent, answers, r);
    }
    hide FollowerOk, Contributed;
  }

  lemma FollowerPushIsSafe(s: System, f: Name, isEnd: bool, weights: Weights)
    requires Safe(s) && Enabled(s, FollowerPushes(f, isEnd, weights)) && s.ledger != [] && s.leader.aggregating.Valid()
    ensures Safe(Step(s, FollowerPushes(f, isEnd, weights)))
  {
    var r := PushRequest(f, s.clients[f].version, isEnd, weights);
    hide BooksOk, LeaderOnce, FollowersOk, PullsOk, FinishedOk, StageOk, Aggregate.Valid;
    MoreSentAll(s.leader, s.clients, s.sent, s.answers, s.ledger, r);
    FinishedKeeps(s.clients, s.leader.isQuitted, s.leader.latest, f, Pushing(r));
    RefusedKeeps(s.pulls, s.clients, f, Pushing(r));
  }

  /** What the reply does to the follower it is for. */
  lemma FollowerAnswered(f: Name, e: Session, c: Client, latest: nat, sent: set<PushRequest>, answers: set<PushReply>,
                         p: PushReply)
    requires FollowerOk(f, e, c, latest, sent, answers) && p in answers && p.name == f
    requires c.Pushing? && c.request.version == p.version
    ensures FollowerOk(f, e, if p.ok then Waiting(p.into, c.request.isEnd) else Failed, latest, sent, answers)
  {
  }

  lemma SetClient(s: System, f: Name, c: Client)
    requires Safe(s) && f in s.clients && f in s.leader.sessions
    requires FollowerOk(f, s.leader.sessions[f], c, s.leader.latest.version, s.sent, s.answers)
    requires c.Finished? ==> s.leader.isQuitted && c.model == s.leader.latest
    requires s.clients[f].Finished? ==> c.Finished?
    ensures Safe(s.(clients := s.clients[f := c]))
  {
    RefusedKeeps(s.pulls, s.clients, f, c);
    assert s.leader.sessions[f := s.leader.sessions[f]] == s.leader.sessions;
    OneFollower(s.leader, s.clients, s.sent, s.answers, s.ledger, f, s.leader.sessions[f], c);
    FinishedKeeps(s.clients, s.leader.isQuitted, s.leader.latest, f, c);
    hide BooksOk, LeaderOnce, FollowersOk, PullsOk, FinishedOk, StageOk;
  }

  lemma PushReturnIsSafe(s: System, p: PushReply)
    requires Safe(s) && Enabled(s, PushReturns(p)) && s.ledger != [] && s.leader.aggregating.Valid()
    ensures Safe(Step(s, PushReturns(p)))
  {
    FollowerAt(s, p.name);
    hide Safe, FollowerOk;
    FollowerAnswered(p.name, s.leader.sessions[p.name], s.clients[p.name], s.leader.latest.version, s.sent, s.answers,
                     p);
    SetClient(s, p.name, if p.ok then Waiting(p.into, s.clients[p.name].request.isEnd) else Failed);
  }

  lemma AskIsSafe(s: System, f: Name)
    requires Safe(s) && Enabled(s, FollowerAsks(f)) && s.ledger != [] && s.leader.aggregating.Valid()
    ensures Safe(Step(s, FollowerAsks(f)))
  {
    FollowerAt(s, f);
    hide BooksOk, LeaderOnce, FollowersOk, PullsOk, FinishedOk, StageOk, RefusedOk, Aggregate.Valid;
  }

  /** A pull that has been asked for is refused only to a follower that has finished. */
  lemma RefusedIsFinished(s: System, r: PullRequest)
    requires Safe(s) && r in s.asked && Pull(s.leader, r.name, r.version, r.isLast) == Error
    ensures r.name in s.clients && s.clients[r.name].Finished?
  {
    assert r.name in s.leader.sessions && s.leader.sessions[r.name].joined && r.name in s.clients by {
      hide BooksOk, LeaderOnce, PullsOk, FinishedOk, StageOk, FollowerOk, Contributed;
    }
    FollowerAt(s, r.name);
    hide Safe;
  }

  lemma PullIsSafe(s: System, r: PullRequest)
    requires Safe(s) && Enabled(s, PullArrives(r)) && s.ledger != [] && s.leader.aggregating.Valid()
    ensures Safe(Step(s, PullArrives(r)))
  {
    hide BooksOk, LeaderOnce, FollowersOk, FinishedOk, StageOk, AskedOk, Aggregate.Valid, Pull, PullsOk, RefusedOk;
    SafeBasics(s);
    LatestIsPublished(s);
    if Pull(s.leader, r.name, r.version, r.isLast) == Error {
      RefusedIsFinished(s, r);
    }
    MorePulls(s.leader, r, s.pulls, s.published, s.clients);
  }

  lemma MorePulls(l: Leader, r: PullRequest, pulls: set<PullReply>, published: seq<Model>, clients: map<Name, Client>)
    requires PullsOk(pulls, l.isQuitted, l.latest, published) && RefusedOk(pulls, clients)
    requires l.latest.version < |published| && published[l.latest.version] == l.latest
    requires Pull(l, r.name, r.version, r.isLast) == Error ==> r.name in clients && clients[r.name].Finished?
    ensures var reply := Pull(l, r.name, r.version, r.isLast);
            var more := pulls + {PullReply(r.name, r.version, r.isLast, reply == Ok, l.latest)};
            reply != NotReady ==> PullsOk(more, l.isQuitted, l.latest, published) && RefusedOk(more, clients)
  {
  }

  lemma LatestIsPublished(s: System)
    requires Safe(s)
    ensures s.leader.latest.version < |s.published| && s.published[s.leader.latest.version] == s.leader.latest
  {
    hide FollowersOk, LeaderOnce, PullsOk, FinishedOk, StageOk, IsMean, Aggregated, Aggregate.Valid;
  }

  lemma FollowerPulled(f: Name, e: Session, latest: nat, sent: set<PushRequest>, answers: set<PushReply>, p: PullReply)
    requires FollowerOk(f, e, Waiting(p.version, p.isLast), latest, sent, answers)
    requires !p.isLast ==> p.model.version == p.version <= latest
    ensures FollowerOk(f, e, if p.isLast then Finished(p.model) else Training(p.model.version), latest, sent, answers)
  {
  }

  /** A pull that follows a push returns the version the push named: the follower's own check never fails. */
  lemma PullReturnsVersion(s: System, p: PullReply)
    requires Safe(s) && p in s.pulls && p.ok
    ensures !p.isLast ==> p.model.version == p.version <= s.leader.latest.version
    ensures p.isLast ==> s.leader.isQuitted && p.model == s.leader.latest
  {
    SafeBasics(s);
    hide BooksOk, LeaderOnce, FollowersOk, FinishedOk, StageOk;
  }

  /** No pull of a waiting follower is ever answered with an error. */
  lemma PullIsNeverRefused(s: System, p: PullReply)
    requires Safe(s) && Enabled(s, PullReturns(p))
    ensures p.ok
  {
    hide BooksOk, LeaderOnce, FollowersOk, FinishedOk, StageOk, PullsOk, AskedOk;
  }

  lemma PullReturnIsSafe(s: System, p: PullReply)
    requires Safe(s) && Enabled(s, PullReturns(p)) && s.ledger != [] && s.leader.aggregating.Valid()
    ensures Safe(Step(s, PullReturns(p)))
  {
    FollowerAt(s, p.name);
    PullIsNeverRefused(s, p);
    PullReturnsVersion(s, p);
    hide Safe, FollowerOk;
    FollowerPulled(p.name, s.leader.sessions[p.name], s.leader.latest.version, s.sent, s.answers, p);
    SetClient(s, p.name, if p.isLast then Finished(p.model) else Training(p.model.version));
  }

  lemma StartIsSafe(followers: set<Name>, weights: Weights, now: int)
    ensures Safe(Start(followers, weights, now))
  {
    assert EMPTY == Aggregated([]);
  }

  lemma StepIsSafe(s: System, a: Action)
    requires Safe(s) && Enabled(s, a)
    ensures s.ledger != [] && s.leader.aggregating.Valid() && Safe(Step(s, a))
  {
    SafeBasics(s);
    hide Safe, Step, Enabled, Aggregate.Valid;
    match a
    case JoinArrives(f, delivered) => JoinIsSafe(s, f, delivered);
    case QuitArrives(f) => QuitIsSafe(s, f);
    case LeaderStarts => LeaderTurnIsSafe(s, a);
    case LeaderSums(isEnd, weights) => SumIsSafe(s, isEnd, weights);
    case LeaderChecks => LeaderTurnIsSafe(s, a);
    case LeaderPublishes(now) => PublishIsSafe(s, now);
    case LeaderLooks => LeaderTurnIsSafe(s, a);
    case LeaderQuits => LeaderTurnIsSafe(s, a);
    case FollowerPushes(f, isEnd, weights) => FollowerPushIsSafe(s, f, isEnd, weights);
    case PushArrives(r) => PushIsSafe(s, r);
    case PushReturns(p) => PushReturnIsSafe(s, p);
    case FollowerAsks(f) => AskIsSafe(s, f);
    case PullArrives(r) => PullIsSafe(s, r);
    case PullReturns(p) => PullReturnIsSafe(s, p);
  }

  /** The state after a run; steps that are not possible are skipped.  The conditions on the accumulator, without which
      a step has no meaning, never exclude one: `StepIsSafe`. */
  ghost function After(followers: set<Name>, weights: Weights, now: int, actions: seq<Action>): System {
    if actions == [] then Start(followers, weights, now)
    else
      var s := After(followers, weights, now, actions[..|actions| - 1]);
      var a := actions[|actions| - 1];
      if Enabled(s, a) && s.ledger != [] && s.leader.aggregating.Valid() then Step(s, a) else s
  }

  /** Over every interleaving of leader, followers and network. */
  lemma {:induction false} EveryRunIsSafe(followers: set<Name>, weights: Weights, now: int, actions: seq<Action>)
    ensures Safe(After(followers, weights, now, actions))
  {
    hide Safe, Step, Enabled, Aggregate.Valid;
    if actions == [] {
      StartIsSafe(followers, weights, now);
    } else {
      var s, a := After(followers, weights, now, actions[..|actions| - 1]), actions[|actions| - 1];
      EveryRunIsSafe(followers, weights, now, actions[..|actions| - 1]);
      if Enabled(s, a) {
        StepIsSafe(s, a);
      }
    }
  }

  // ---------------------------------------------------------------- main results

  /** Version `v` has one contribution of every follower that had not ended its training before, and none of the
      others. */
  ghost predicate OneOfEach(s: System, v: nat, f: Name)
    requires v < |s.ledger| && f in s.leader.sessions
  {
    && Times(s.ledger[v], false, f) <= 1
    && (Times(s.ledger[v], false, f) == 1 <==> v <= s.leader.sessions[f].latestVersion)
    && (Times(s.ledger[v], false, f) == 0 ==> s.leader.sessions[f].trainEnd)
  }

  /** Every published version is the mean of its contributions; a follower contributed exactly once if it had not
      ended its training before that version and never otherwise, and the leader at most once. */
  lemma PublishedIsMean(followers: set<Name>, weights: Weights, now: int, actions: seq<Action>)
    ensures var s := After(followers, weights, now, actions);
            && |s.published| == s.leader.latest.version + 1 < |s.ledger| && s.clients.Keys == s.leader.sessions.Keys
            && (forall v :: 1 <= v < |s.published| ==>
                  IsMean(s.ledger[v], s.published[v]) && Times(s.ledger[v], true, 0) <= 1)
            && (forall v, f :: 1 <= v < |s.published| && f in s.clients ==> OneOfEach(s, v, f))
  {
    var s := After(followers, weights, now, actions);
    EveryRunIsSafe(followers, weights, now, actions);
    SafeBasics(s);
    hide After, PullsOk, FinishedOk, StageOk, IsMean, FollowerOk, Contributed;
    forall v, f | 1 <= v < |s.published| && f in s.clients ensures OneOfEach(s, v, f) {
      ContributedOnce(s, v, f);
    }
  }

  lemma ContributedOnce(s: System, v: nat, f: Name)
    requires Safe(s) && 1 <= v < |s.published| && f in s.clients
    ensures v < |s.ledger| && f in s.leader.sessions && OneOfEach(s, v, f)
  {
    FollowerAt(s, f);
    SafeBasics(s);
    hide Safe;
  }

  /** A follower still training is at the published version or has pushed for the next one, and the version a waiting
      follower asks for is published or the one being aggregated: the leader never skips it. */
  lemma Lockstep(followers: set<Name>, weights: Weights, now: int, actions: seq<Action>)
    ensures var s := After(followers, weights, now, actions);
            && s.leader.aggregatingVersion == s.leader.latest.version + 1
            && forall f :: f in s.clients ==> InLockstep(s, f)
  {
    var s := After(followers, weights, now, actions);
    EveryRunIsSafe(followers, weights, now, actions);
    SafeBasics(s);
    forall f | f in s.clients ensures InLockstep(s, f) {
      FollowerAt(s, f);
      hide Safe, After;
    }
  }

  ghost predicate InLockstep(s: System, f: Name) {
    var latest := s.leader.latest.version;
    && f in s.clients && f in s.leader.sessions
    && (!s.leader.sessions[f].trainEnd ==> s.leader.sessions[f].latestVersion in {latest, latest + 1})
    && (s.clients[f].Training? ==> s.clients[f].version == latest)
    && (s.clients[f].Waiting? && !s.clients[f].isLast ==> s.clients[f].version in {latest, latest + 1})
  }

  /** All followers that complete the last pull hold the leader's final weights, version and timestamp. */
  lemma LastPullsAgree(followers: set<Name>, weights: Weights, now: int, actions: seq<Action>)
    ensures var s := After(followers, weights, now, actions);
            forall f :: f in s.clients && s.clients[f].Finished? ==>
              s.clients[f].model == s.leader.latest && s.stage.Quitted?
  {
    EveryRunIsSafe(followers, weights, now, actions);
    hide BooksOk, FollowersOk, LeaderOnce, After;
  }

  /** ... and nothing published later can change that. */
  lemma NothingAfterQuit(s: System, a: Action)
    requires Safe(s) && Enabled(s, a) && s.stage.Quitted? && s.ledger != [] && s.leader.aggregating.Valid()
    ensures Step(s, a).leader.latest == s.leader.latest && Step(s, a).stage.Quitted?
  {
    hide BooksOk, FollowersOk, LeaderOnce, PullsOk;
  }

  // ---------------------------------------------------------------- how calls are answered

  /** A waiting follower's pull is never refused: it is asked to wait exactly while the version it asks for is not
      published or, for a last pull, while the leader has not quitted. */
  lemma PullIsExact(s: System, f: Name)
    requires Safe(s) && f in s.clients && s.clients[f].Waiting?
    ensures var c := s.clients[f];
            var reply, ready := Pull(s.leader, f, c.version, c.isLast),
                                if c.isLast then s.stage.Quitted? else c.version < |s.published|;
            reply == (if ready then Ok else NotReady)
  {
    FollowerAt(s, f);
    SafeBasics(s);
    assert s.leader.isQuitted <==> s.stage.Quitted? by {
      hide FollowersOk, BooksOk, LeaderOnce, PullsOk, FinishedOk, AskedOk, RefusedOk;
    }
    hide Safe;
  }

  /** Registering and leaving are never refused to a follower whose program asks for it, however often. */
  lemma JoinAndQuitAreAnswered(s: System, f: Name)
    requires Safe(s) && f in s.clients
    ensures s.clients[f].NotJoined? ==> Join(s.leader, f).1 == Ok
    ensures s.clients[f].Finished? ==> Quit(s.leader, f).1 == Ok
  {
    FollowerAt(s, f);
    hide Safe;
  }

  /** So a follower fails only when a push that was counted before is repeated: in every run, a follower that fails in a
      step had pushed, and that push was counted. */
  lemma OnlyRepeatedPushesFail(s: System, a: Action, f: Name)
    requires Safe(s) && Enabled(s, a) && s.ledger != [] && s.leader.aggregating.Valid()
    requires f in s.clients && !s.clients[f].Failed? && f in Step(s, a).clients && Step(s, a).clients[f].Failed?
    ensures a.PushReturns? && s.clients[f].Pushing? && f in s.leader.sessions
    ensures s.clients[f].request.version < s.leader.sessions[f].latestVersion
  {
    hide Safe, Step, Enabled, FollowerOk, Aggregate.Valid, Join, Quit;
    FollowerAt(s, f);
    JoinAndQuitAreAnswered(s, f);
    WhoFails(s, a, f);
    if a.PullReturns? {
      PullIsNeverRefused(s, a.pull);
    } else if a.PushReturns? {
      AnsweredPush(s, a.answer, f);
    }
  }

  /** Which steps can make a follower fail at all. */
  lemma WhoFails(s: System, a: Action, f: Name)
    requires Enabled(s, a) && s.ledger != [] && s.leader.aggregating.Valid()
    requires f in s.clients && !s.clients[f].Failed? && f in Step(s, a).clients && Step(s, a).clients[f].Failed?
    ensures || (a.JoinArrives? && s.clients[f].NotJoined? && Join(s.leader, f).1 != Ok)
            || (a.QuitArrives? && s.clients[f].Finished? && Quit(s.leader, f).1 != Ok)
            || (a.PullReturns? && !a.pull.ok)
            || (a.PushReturns? && s.clients[f].Pushing? && a.answer.name == f && a.answer in s.answers
                && a.answer.version == s.clients[f].request.version)
  {
    hide Join, Quit, Pull, Push, Aggregate.Valid, Plus, Record, Unpushed, Publish;
  }

  lemma AnsweredPush(s: System, p: PushReply, f: Name)
    requires f in s.clients && f in s.leader.sessions && p in s.answers && p.name == f
    requires FollowerOk(f, s.leader.sessions[f], s.clients[f], s.leader.latest.version, s.sent, s.answers)
    ensures p.version < s.leader.sessions[f].latestVersion
  {
  }

  // ---------------------------------------------------------------- followers left behind

  /** The leader has left the training loop, and the follower has not ended its training. */
  ghost predicate Stranded(s: System, f: Name) {
    Over(s.stage) && f in s.clients && f in s.leader.sessions && !s.leader.sessions[f].trainEnd
  }

  /** A stranded follower has pushed for a version that is not published: it does not train, has not finished, and its
      pull is not answered. */
  lemma StrandedWaits(s: System, f: Name)
    requires Safe(s) && Stranded(s, f)
    ensures s.leader.sessions[f].latestVersion == s.leader.latest.version + 1
    ensures match s.clients[f]
            case Waiting(version, isLast) =>
              !isLast && version == s.leader.latest.version + 1 && Pull(s.leader, f, version, isLast) != Ok
            case Pushing(r) => !Accepts(s.leader, f, r.version)
            case Failed => true
            case _ => false
  {
    FollowerAt(s, f);
    SafeBasics(s);
    assert s.leader.sessions[f].latestVersion == s.leader.aggregatingVersion by {
      if s.leader.sessions[f].latestVersion < s.leader.aggregatingVersion {
        StillUnpushed(s.leader, f);
        hide FollowersOk, BooksOk, LeaderOnce, PullsOk, FinishedOk;
      }
    }
    hide Safe;
  }

  lemma SessionKept(s: System, a: Action, f: Name)
    requires Enabled(s, a) && s.ledger != [] && s.leader.aggregating.Valid() && f in s.leader.sessions && f in s.clients
    requires a.PushArrives? ==> !Accepts(s.leader, a.request.name, a.request.version)
    ensures f in Step(s, a).leader.sessions && f in Step(s, a).clients
    ensures Step(s, a).leader.sessions[f].trainEnd == s.leader.sessions[f].trainEnd
  {
    hide Aggregate.Valid, Mean, Plus, Record, Unpushed;
    match a
    case JoinArrives(g, _) =>
    case QuitArrives(g) =>
    case PushReturns(p) =>
    case PullReturns(p) =>
    case FollowerPushes(g, _, _) =>
    case _ =>
  }

  lemma StaysOver(s: System, a: Action)
    requires Enabled(s, a) && s.ledger != [] && s.leader.aggregating.Valid() && Over(s.stage)
    ensures Over(Step(s, a).stage)
  {
    hide Aggregate.Valid, Mean, Plus, Record, Unpushed;
  }

  /** And that stays so: nothing that happens later helps it. */
  lemma StrandedForever(s: System, a: Action, f: Name)
    requires Safe(s) && Stranded(s, f) && Enabled(s, a) && s.ledger != [] && s.leader.aggregating.Valid()
    ensures Safe(Step(s, a)) && Stranded(Step(s, a), f)
  {
    hide Safe, Aggregate.Valid, Step, Enabled, Over;
    StepIsSafe(s, a);
    if a.PushArrives? {
      NoPushSlipsIn(s, a.request) by {
        PushIsSent(s, a);
      }
    }
    SessionKept(s, a, f);
    StaysOver(s, a);
  }

  lemma PushIsSent(s: System, a: Action)
    requires Enabled(s, a) && a.PushArrives?
    ensures a.request in s.sent
  {
  }

  /** Once the leader has quitted, the pull of a waiting follower is answered exactly if its last push ended its
      training: the others wait for ever. */
  lemma LastPullOnlyIfEnded(s: System, f: Name)
    requires Safe(s) && s.stage.Quitted? && f in s.clients && s.clients[f].Waiting?
    ensures f in s.leader.sessions
    ensures Pull(s.leader, f, s.clients[f].version, s.clients[f].isLast) == Ok <==> s.leader.sessions[f].trainEnd
  {
    FollowerAt(s, f);
    if !s.leader.sessions[f].trainEnd {
      StrandedWaits(s, f);
    }
    assert s.leader.isQuitted by {
      hide FollowersOk, BooksOk, LeaderOnce, PullsOk, FinishedOk;
    }
    hide Safe;
  }

  /** A push that arrives is refused exactly if it has been counted before: the follower whose reply was lost and that
      asks again is told of an error, and fails. */
  lemma RefusedExactlyIfCounted(s: System, r: PushRequest)
    requires Safe(s) && r in s.sent && r.name in s.clients
    ensures r.name in s.leader.sessions
    ensures Push(s.leader, r.name, r.weights, r.version, r.isEnd).1 == Error <==>
              r.version < s.leader.sessions[r.name].latestVersion
  {
    SafeBasics(s);
    FollowerAt(s, r.name);
    if Accepts(s.leader, r.name, r.version) {
      AcceptedIsCurrent(s, r);
    } else {
      RejectedWasCounted(s, r);
    }
    hide Safe;
  }

  /** A follower that has failed never gets its last pull, even if its push had ended its training. */
  lemma FailedForever(s: System, a: Action, f: Name)
    requires Enabled(s, a) && s.ledger != [] && s.leader.aggregating.Valid()
    requires f in s.clients && s.clients[f].Failed?
    ensures f in Step(s, a).clients && Step(s, a).clients[f].Failed?
  {
    hide Aggregate.Valid, Mean, Plus, Record, Unpushed;
  }

  // ---------------------------------------------------------------- it does happen

  /** A run with follower 0 alone, at the latest version or just behind it. */
  ghost predicate At(actions: seq<Action>, s: System, w: Weights, version: nat, latest: nat, stage: Stage) {
    && s == After({0}, w, 0, actions) && s.stage == stage && s.leader.latest.version == latest
    && s.clients.Keys == {0} == s.leader.sessions.Keys
    && s.leader.sessions[0] == Session(true, false, false, version)
  }

  lemma Do(actions: seq<Action>, s: System, w: Weights, a: Action) returns (actions': seq<Action>, s': System)
    requires s == After({0}, w, 0, actions) && Enabled(s, a)
    ensures Safe(s) && s.ledger != [] && s.leader.aggregating.Valid()
    ensures s.leader.aggregatingVersion == s.leader.latest.version + 1
    ensures actions' == actions + [a] && s' == Step(s, a) && s' == After({0}, w, 0, actions')
  {
    EveryRunIsSafe({0}, w, 0, actions);
    SafeBasics(s);
    actions', s' := actions + [a], Step(s, a);
    assert actions'[..|actions|] == actions;
    hide *;
  }

  lemma Joined(w: Weights) returns (actions: seq<Action>, s: System)
    ensures At(actions, s, w, 0, 0, Working) && s.clients[0] == Waiting(0, false)
  {
    actions := [];
    s := After({0}, w, 0, []);
    actions, s := Do(actions, s, w, JoinArrives(0, true));
    actions, s := Do(actions, s, w, LeaderStarts);
  }

  lemma PullOnce(actions: seq<Action>, s: System, w: Weights, v: nat, stage: Stage)
    returns (actions': seq<Action>, s': System)
    requires At(actions, s, w, v, v, stage) && s.clients[0] == Waiting(v, false)
    ensures At(actions', s', w, v, v, stage) && s'.clients[0] == Training(v)
  {
    hide After, Safe, Plus, Record, Aggregate.Valid, Unpushed;
    actions', s' := Do(actions, s, w, FollowerAsks(0));
    actions', s' := Do(actions', s', w, PullArrives(PullRequest(0, v, false)));
    actions', s' := Do(actions', s', w, PullReturns(PullReply(0, v, false, true, s.leader.latest)));
  }

  lemma PushOnce(actions: seq<Action>, s: System, w: Weights, v: nat, stage: Stage, isEnd: bool)
    returns (actions': seq<Action>, s': System)
    requires At(actions, s, w, v, v, stage) && s.clients[0] == Training(v)
    ensures s' == After({0}, w, 0, actions') && s'.stage == stage && s'.leader.latest.version == v
    ensures s'.clients.Keys == {0} == s'.leader.sessions.Keys
    ensures s'.leader.sessions[0] == Session(true, false, isEnd, v + 1)
    ensures s'.clients[0] == Pushing(PushRequest(0, v, isEnd, w)) && PushRequest(0, v, isEnd, w) in s'.sent
    ensures PushReply(0, v, true, v + 1) in s'.answers
  {
    hide After, Safe, Plus, Record, Aggregate.Valid, Unpushed;
    actions', s' := Do(actions, s, w, FollowerPushes(0, isEnd, w));
    actions', s' := Do(actions', s', w, PushArrives(PushRequest(0, v, isEnd, w)));
  }

  /** The follower pulls, trains and pushes. */
  lemma PullAndPush(actions: seq<Action>, s: System, w: Weights, v: nat, stage: Stage)
    returns (actions': seq<Action>, s': System)
    requires At(actions, s, w, v, v, stage) && s.clients[0] == Waiting(v, false)
    ensures At(actions', s', w, v + 1, v, stage) && s'.clients[0] == Pushing(PushRequest(0, v, false, w))
    ensures PushReply(0, v, true, v + 1) in s'.answers
  {
    hide After;
    actions', s' := PullOnce(actions, s, w, v, stage);
    actions', s' := PushOnce(actions', s', w, v, stage, false);
  }

  lemma NobodyUnpushed(l: Leader)
    requires l.sessions.Keys == {0} && l.sessions[0].latestVersion == l.aggregatingVersion
    ensures Unpushed(l) == {}
  {
  }

  /** The leader pushes for the last time and publishes. */
  lemma LastPublication(actions: seq<Action>, s: System, w: Weights) returns (actions': seq<Action>, s': System)
    requires At(actions, s, w, 1, 0, Working)
    ensures At(actions', s', w, 1, 1, Looking) && s'.clients == s.clients && s.answers <= s'.answers
  {
    Basics(actions, s, w);
    NobodyUnpushed(s.leader);
    hide After, Unpushed;
    actions', s' := LeaderPublishesLast(actions, s, w);
  }

  lemma PushAnswered(actions: seq<Action>, s: System, w: Weights, v: nat, latest: nat, stage: Stage)
    returns (actions': seq<Action>, s': System)
    requires At(actions, s, w, v + 1, latest, stage) && s.clients[0] == Pushing(PushRequest(0, v, false, w))
    requires PushReply(0, v, true, v + 1) in s.answers
    ensures At(actions', s', w, v + 1, latest, stage) && s'.clients[0] == Waiting(v + 1, false)
  {
    hide After, Safe, Aggregate.Valid;
    actions', s' := Do(actions, s, w, PushReturns(PushReply(0, v, true, v + 1)));
  }

  /** The leader looks again and finds that all have pushed. */
  lemma LastLook(actions: seq<Action>, s: System, w: Weights) returns (actions': seq<Action>, s': System)
    requires At(actions, s, w, 2, 1, Looking)
    ensures At(actions', s', w, 2, 1, Stopped) && s'.clients == s.clients && s'.answers == s.answers
  {
    Basics(actions, s, w);
    NobodyUnpushed(s.leader);
    hide After, Safe, Aggregate.Valid, Unpushed;
    actions', s' := Do(actions, s, w, LeaderLooks);
  }

  /** Between the leader's last publication and its second look the follower pulls it and pushes again: the leader sees
      that nobody is left to push and stops, and the follower waits for a version that never comes. */
  lemma StrandingHappens(w: Weights) returns (actions: seq<Action>)
    ensures Stranded(After({0}, w, 0, actions), 0)
    ensures After({0}, w, 0, actions).clients[0] == Waiting(2, false)
  {
    var s;
    actions, s := Joined(w);
    hide After, Safe, Step, Enabled;
    actions, s := PullAndPush(actions, s, w, 0, Working);
    actions, s := LastPublication(actions, s, w);
    actions, s := PushAnswered(actions, s, w, 0, 1, Looking);
    actions, s := PullAndPush(actions, s, w, 1, Looking);
    actions, s := LastLook(actions, s, w);
    actions, s := PushAnswered(actions, s, w, 1, 1, Stopped);
  }

  /** Whether the leader works or not, a push that is repeated after its reply was lost is refused. */
  lemma PushRepeated(actions: seq<Action>, s: System, w: Weights, r: PushRequest)
    returns (actions': seq<Action>, s': System)
    requires s == After({0}, w, 0, actions) && s.clients.Keys == {0} == s.leader.sessions.Keys
    requires r in s.sent && r.name == 0 && s.clients[0] == Pushing(r) && r.version < s.leader.sessions[0].latestVersion
    ensures s' == After({0}, w, 0, actions') && s'.leader == s.leader && s'.stage == s.stage
    ensures s'.clients.Keys == {0} && s'.clients[0].Failed?
  {
    hide After, Safe, Aggregate.Valid, Plus, Record, Unpushed;
    actions', s' := Do(actions, s, w, PushArrives(r));
    actions', s' := Do(actions', s', w, PushReturns(PushReply(0, r.version, false, s.leader.aggregatingVersion)));
  }

  /** The follower ends its training with a push that is counted. */
  lemma PullAndEnd(w: Weights) returns (actions: seq<Action>, s: System, r: PushRequest)
    ensures s == After({0}, w, 0, actions) && s.stage == Working && s.leader.latest.version == 0
    ensures s.clients.Keys == {0} == s.leader.sessions.Keys && s.leader.sessions[0] == Session(true, false, true, 1)
    ensures r == PushRequest(0, 0, true, w) && r in s.sent && s.clients[0] == Pushing(r)
  {
    actions, s := Joined(w);
    r := PushRequest(0, 0, true, w);
    hide After;
    actions, s := PullOnce(actions, s, w, 0, Working);
    actions, s := PushOnce(actions, s, w, 0, Working, true);
  }

  lemma AllEnded(l: Leader)
    requires l.sessions.Keys == {0} && l.sessions[0].trainEnd
    ensures Unpushed(l) == {}
  {
  }

  /** The leader finishes: it pushes, publishes, looks again, stops and quits. */
  lemma LeaderFinishes(actions: seq<Action>, s: System, w: Weights) returns (actions': seq<Action>, s': System)
    requires s == After({0}, w, 0, actions) && s.stage == Working
    requires s.leader.sessions.Keys == {0} && s.leader.sessions[0].trainEnd
    ensures s' == After({0}, w, 0, actions') && s'.stage == Quitted
    ensures s'.leader.sessions == s.leader.sessions && s'.clients == s.clients
  {
    AllEnded(s.leader);
    hide *;
    actions', s' := LeaderPublishesLast(actions, s, w);
    AllEnded(s'.leader);
    actions', s' := LeaderStops(actions', s', w);
  }

  lemma LeaderStops(actions: seq<Action>, s: System, w: Weights) returns (actions': seq<Action>, s': System)
    requires s == After({0}, w, 0, actions) && s.stage == Looking && Unpushed(s.leader) == {}
    ensures s' == After({0}, w, 0, actions') && s'.stage == Quitted
    ensures s'.leader.sessions == s.leader.sessions && s'.clients == s.clients
  {
    hide After, Safe, Aggregate.Valid, Unpushed;
    actions', s' := Do(actions, s, w, LeaderLooks);
    actions', s' := Do(actions', s', w, LeaderQuits);
  }

  lemma LeaderPublishesLast(actions: seq<Action>, s: System, w: Weights) returns (actions': seq<Action>, s': System)
    requires s == After({0}, w, 0, actions) && s.stage == Working && Unpushed(s.leader) == {}
    ensures s' == After({0}, w, 0, actions') && s'.stage == Looking
    ensures s'.clients == s.clients && s'.answers == s.answers
    ensures s'.leader.sessions == s.leader.sessions && s'.leader.latest.version == s.leader.latest.version + 1
  {
    hide After, Safe, Plus, Record, Aggregate.Valid, Mean, Unpushed;
    actions', s' := Do(actions, s, w, LeaderSums(true, w));
    SameLeft(s.leader, s'.leader);
    actions', s' := Do(actions', s', w, LeaderChecks);
    actions', s' := Do(actions', s', w, LeaderPublishes(0));
  }

  lemma SameLeft(l: Leader, l': Leader)
    requires l'.sessions == l.sessions && l'.aggregatingVersion == l.aggregatingVersion
    ensures Unpushed(l') == Unpushed(l)
  {
  }

  /** It does happen: the last push is counted, its reply is lost, the repetition is refused, and the follower is
      without its last pull although its training has ended. */
  lemma LostReplyFailsFollower(w: Weights) returns (actions: seq<Action>)
    ensures var s := After({0}, w, 0, actions);
            && s.stage == Quitted && s.clients.Keys == {0} == s.leader.sessions.Keys
            && s.leader.sessions[0].trainEnd && s.clients[0].Failed?
  {
    var s, r;
    actions, s, r := PullAndEnd(w);
    hide After, Step, Enabled, Safe;
    actions, s := PushRepeated(actions, s, w, r);
    actions, s := LeaderFinishes(actions, s, w);
  }

  lemma Basics(actions: seq<Action>, s: System, w: Weights)
    requires s == After({0}, w, 0, actions)
    ensures s.leader.aggregatingVersion == s.leader.latest.version + 1
  {
    EveryRunIsSafe({0}, w, 0, actions);
    SafeBasics(s);
  }
}
