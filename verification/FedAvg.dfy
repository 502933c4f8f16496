/** The leader of federated averaging: its handlers and its sum and count accumulator. */
module FedAvg {

  /** Followers and variables are only told apart by name. */
  type Name = nat

  /** One real per trainable variable stands for its array: aggregation works element by element. */
  type Weights = map<Name, real>

  datatype Session = Session(joined: bool, quitted: bool, trainEnd: bool, latestVersion: nat)

  datatype Aggregate = Aggregate(sum: Weights, count: map<Name, nat>) {
    ghost predicate Valid() {
      sum.Keys == count.Keys && forall n :: n in count ==> count[n] > 0
    }
  }

  datatype Model = Model(weights: Weights, version: nat, timestamp: int)

  datatype Leader = Leader(sessions: map<Name, Session>, latest: Model, aggregatingVersion: nat, aggregating: Aggregate,
                           isQuitted: bool)

  const EMPTY := Aggregate(map[], map[])

  datatype Reply = Ok | NotReady | Error

  // ---------------------------------------------------------------- accumulating

  /** The accumulator with one more set of weights. */
  function Plus(a: Aggregate, w: Weights): Aggregate
    requires a.sum.Keys == a.count.Keys
  {
    Aggregate(PlusReals(a.sum, w), PlusCounts(a.count, w.Keys))
  }

  function PlusReals(m: Weights, w: Weights): Weights {
    map n | n in m.Keys + w.Keys :: (if n in m then m[n] else 0.0) + (if n in w then w[n] else 0.0)
  }

  function PlusCounts(m: map<Name, nat>, names: set<Name>): map<Name, nat> {
    map n | n in m.Keys + names :: (if n in m then m[n] else 0) + (if n in names then 1 else 0)
  }

  ghost function Part(w: Weights, done: set<Name>): Weights {
    map n | n in w && n in done :: w[n]
  }

  lemma AllParts(w: Weights)
    ensures Part(w, w.Keys) == w
  {
  }

  lemma Untouched(a: Aggregate, w: Weights)
    requires a.sum.Keys == a.count.Keys
    ensures Plus(a, Part(w, {})) == a
  {
    var b := Plus(a, Part(w, {}));
    assert b.sum == a.sum && b.count == a.count;
  }

  function AddOne(a: Aggregate, n: Name, x: real): Aggregate
    requires a.sum.Keys == a.count.Keys
  {
    if n in a.sum then Aggregate(a.sum[n := a.sum[n] + x], a.count[n := a.count[n] + 1])
    else Aggregate(a.sum[n := x], a.count[n := 1])
  }

  /** One step of the loop over the variables. */
  lemma PlusOne(a: Aggregate, w: Weights, done: set<Name>, n: Name)
    requires a.sum.Keys == a.count.Keys && n in w && n !in done
    ensures Plus(a, Part(w, done + {n})) == AddOne(Plus(a, Part(w, done)), n, w[n])
  {
    PlusOneReal(a.sum, w, done, n);
    assert Part(w, done + {n}).Keys == Part(w, done).Keys + {n};
    assert n !in Part(w, done).Keys;
    PlusOneCount(a.count, Part(w, done).Keys, n);
  }

  lemma PlusOneReal(m: Weights, w: Weights, done: set<Name>, n: Name)
    requires n in w && n !in done
    ensures var b := PlusReals(m, Part(w, done));
            PlusReals(m, Part(w, done + {n})) == b[n := (if n in b then b[n] else 0.0) + w[n]]
  {
  }

  lemma PlusOneCount(m: map<Name, nat>, done: set<Name>, n: Name)
    requires n !in done
    ensures var b := PlusCounts(m, done);
            PlusCounts(m, done + {n}) == b[n := (if n in b then b[n] else 0) + 1]
  {
  }

  function Mean(a: Aggregate): Weights
    requires a.sum.Keys == a.count.Keys && forall n :: n in a.count ==> a.count[n] > 0
  {
    map n | n in a.sum :: a.sum[n] / a.count[n] as real
  }

  /** Somebody's weights, added to the version being aggregated; the leader has no name. */
  datatype Contribution = Contribution(isLeader: bool, name: Name, weights: Weights)

  function Names(cs: seq<Contribution>): set<Name> {
    if cs == [] then {} else Names(cs[..|cs| - 1]) + cs[|cs| - 1].weights.Keys
  }

  function TotalOf(cs: seq<Contribution>, n: Name): real {
    if cs == [] then 0.0
    else TotalOf(cs[..|cs| - 1], n) + if n in cs[|cs| - 1].weights then cs[|cs| - 1].weights[n] else 0.0
  }

  function CountOf(cs: seq<Contribution>, n: Name): nat {
    if cs == [] then 0 else CountOf(cs[..|cs| - 1], n) + if n in cs[|cs| - 1].weights then 1 else 0
  }

  /** Per variable, the sum over the contributions that have it and how many have it. */
  function Aggregated(cs: seq<Contribution>): (a: Aggregate)
    ensures a.sum.Keys == a.count.Keys
  {
    Aggregate(map n | n in Names(cs) :: TotalOf(cs, n), map n | n in Names(cs) :: CountOf(cs, n))
  }

  lemma {:induction false} NamesAreCounted(cs: seq<Contribution>, n: Name)
    ensures n in Names(cs) <==> CountOf(cs, n) > 0
    ensures n !in Names(cs) ==> TotalOf(cs, n) == 0.0
  {
    if cs != [] {
      NamesAreCounted(cs[..|cs| - 1], n);
    }
  }

  lemma AggregatedIsValid(cs: seq<Contribution>)
    ensures Aggregated(cs).Valid()
  {
    forall n | n in Names(cs) ensures CountOf(cs, n) > 0 {
      NamesAreCounted(cs, n);
    }
  }

  lemma OneMoreContribution(cs: seq<Contribution>, c: Contribution)
    ensures Names(cs + [c]) == Names(cs) + c.weights.Keys
    ensures forall n :: TotalOf(cs + [c], n) == TotalOf(cs, n) + if n in c.weights then c.weights[n] else 0.0
    ensures forall n :: CountOf(cs + [c], n) == CountOf(cs, n) + if n in c.weights then 1 else 0
  {
    assert (cs + [c])[..|cs|] == cs;
  }

  /** The accumulator after one more contribution. */
  lemma SumIsAggregated(cs: seq<Contribution>, c: Contribution)
    ensures Plus(Aggregated(cs), c.weights) == Aggregated(cs + [c])
  {
    OneMoreContribution(cs, c);
    hide TotalOf, CountOf, Names;
    forall n ensures n in Names(cs) <==> CountOf(cs, n) > 0
      ensures n !in Names(cs) ==> TotalOf(cs, n) == 0.0
    {
      NamesAreCounted(cs, n);
    }
    var a, b := Plus(Aggregated(cs), c.weights), Aggregated(cs + [c]);
    assert a.sum == b.sum;
    assert a.count == b.count;
  }

  // ---------------------------------------------------------------- the handlers

  /** `_follower_push_info`: the followers still to push for the version being aggregated. */
  function Unpushed(l: Leader): set<Name> {
    set f | f in l.sessions && !l.sessions[f].trainEnd && l.sessions[f].latestVersion != l.aggregatingVersion
  }

  function Join(l: Leader, f: Name): (Leader, Reply) {
    if f !in l.sessions then (l, Error)
    else if !l.sessions[f].joined then (l.(sessions := l.sessions[f := l.sessions[f].(joined := true)]), Ok)
    else if l.sessions[f].quitted then (l, Error)
    else (l, Ok)
  }

  function Quit(l: Leader, f: Name): (Leader, Reply) {
    if f !in l.sessions || !l.sessions[f].joined then (l, Error)
    else (l.(sessions := l.sessions[f := l.sessions[f].(quitted := true)]), Ok)
  }

  predicate Active(l: Leader, f: Name) {
    f in l.sessions && l.sessions[f].joined && !l.sessions[f].quitted
  }

  function Pull(l: Leader, f: Name, version: nat, isLast: bool): Reply {
    if !Active(l, f) then Error
    else if (if isLast then l.isQuitted else version == l.latest.version) then Ok else NotReady
  }

  /** A push counts when it names the version its follower pushed last. */
  predicate Accepts(l: Leader, f: Name, version: nat) {
    Active(l, f) && version == l.sessions[f].latestVersion
  }

  function Push(l: Leader, f: Name, weights: Weights, version: nat, isEnd: bool): (Leader, Reply)
    requires l.aggregating.sum.Keys == l.aggregating.count.Keys
  {
    if !Accepts(l, f, version) then (l, Error)
    else
      (l.(aggregating := Plus(l.aggregating, weights),
          sessions := l.sessions[f := l.sessions[f].(latestVersion := l.aggregatingVersion, trainEnd := isEnd)]), Ok)
  }

  /** `_aggregate_weights`. */
  function Publish(l: Leader, now: int): Leader
    requires l.aggregating.Valid()
  {
    l.(latest := Model(Mean(l.aggregating), l.aggregatingVersion, now),
       aggregatingVersion := l.aggregatingVersion + 1, aggregating := EMPTY)
  }

  // ---------------------------------------------------------------- the leader object

  class LeaderMaster {
    var sessions: map<Name, Session>
    var latestWeights: Weights
    var latestVersion: nat
    var latestTimestamp: int
    var aggregatingVersion: nat
    var sum: Weights
    var count: map<Name, nat>
    var isQuitted: bool

    function Value(): Leader
      reads this
    {
      Leader(sessions, Model(latestWeights, latestVersion, latestTimestamp), aggregatingVersion, Aggregate(sum, count),
             isQuitted)
    }

    constructor (followers: set<Name>, weights: Weights, now: int)
      ensures Value() == Leader(map f | f in followers :: Session(false, false, false, 0), Model(weights, 0, now), 1,
                                EMPTY, false)
    {
      sessions := map f | f in followers :: Session(false, false, false, 0);
      latestWeights, latestVersion, latestTimestamp := weights, 0, now;
      aggregatingVersion, sum, count, isQuitted := 1, map[], map[], false;
    }

    /** The body of the loop over the variables. */
    method AddWeight(n: Name, x: real)
      requires sum.Keys == count.Keys
      modifies this`sum, this`count
      ensures Aggregate(sum, count) == AddOne(old(Aggregate(sum, count)), n, x)
      ensures Value() == old(Value()).(aggregating := Aggregate(sum, count)) && sum.Keys == count.Keys
    {
      if n in sum {
        sum := sum[n := sum[n] + x];
        count := count[n := count[n] + 1];
      } else {
        sum := sum[n := x];
        count := count[n := 1];
      }
    }

    /** `_sum_weights`. */
    method SumWeights(w: Weights)
      requires sum.Keys == count.Keys
      modifies this`sum, this`count
      ensures Value() == old(Value()).(aggregating := Plus(old(Value()).aggregating, w))
    {
      ghost var before := Aggregate(sum, count);
      Untouched(before, w);
      var left := w.Keys;
      ghost var done: set<Name> := {};
      hide Plus, Part, AddOne;
      while left != {}
        invariant left <= w.Keys && done == w.Keys - left && sum.Keys == count.Keys
        invariant Aggregate(sum, count) == Plus(before, Part(w, done))
        invariant Value() == old(Value()).(aggregating := Aggregate(sum, count))
      {
        var n :| n in left;
        PlusOne(before, w, done, n);
        AddWeight(n, w[n]);
        left := left - {n};
        done := done + {n};
      }
      assert done == w.Keys;
      AllParts(w);
    }

    method AggregateWeights(now: int)
      requires Aggregate(sum, count).Valid()
      modifies this
      ensures Value() == Publish(old(Value()), now)
      ensures latestVersion == old(aggregatingVersion) == aggregatingVersion - 1 && latestTimestamp == now
      ensures latestWeights.Keys == old(sum.Keys)
      ensures forall n :: n in latestWeights ==> latestWeights[n] == old(sum[n]) / old(count[n]) as real
      ensures sum == map[] && count == map[] && sessions == old(sessions) && isQuitted == old(isQuitted)
    {
      var left := sum.Keys;
      var divided: Weights := map[];
      while left != {}
        invariant left <= sum.Keys && divided.Keys == sum.Keys - left
        invariant forall n :: n in divided ==> divided[n] == sum[n] / count[n] as real
        invariant Value() == old(Value())
      {
        var n :| n in left;
        divided := divided[n := sum[n] / count[n] as real];
        left := left - {n};
      }
      assert divided == Mean(Aggregate(sum, count));
      latestWeights := divided;
      latestVersion := aggregatingVersion;
      latestTimestamp := now;
      sum, count := map[], map[];
      aggregatingVersion := aggregatingVersion + 1;
    }

    method PushHandler(f: Name, weights: Weights, version: nat, isEnd: bool) returns (r: Reply, into: nat)
      requires sum.Keys == count.Keys
      modifies this
      ensures (Value(), r) == Push(old(Value()), f, weights, version, isEnd)
      ensures r == Ok ==> into == aggregatingVersion
    {
      into := 0;
      if f !in sessions {
        return Error, into;
      }
      if !sessions[f].joined {
        return Error, into;
      }
      if sessions[f].quitted {
        return Error, into;
      }
      if version != sessions[f].latestVersion {
        return Error, into;
      }
      SumWeights(weights);
      sessions := sessions[f := sessions[f].(latestVersion := aggregatingVersion, trainEnd := isEnd)];
      return Ok, aggregatingVersion;
    }

    method PullHandler(f: Name, version: nat, isLast: bool) returns (r: Reply, model: Model)
      ensures r == Pull(Value(), f, version, isLast)
      ensures model == Value().latest
    {
      model := Model(latestWeights, latestVersion, latestTimestamp);
      if f !in sessions || !sessions[f].joined || sessions[f].quitted {
        return Error, model;
      }
      if isLast {
        if !isQuitted {
          return NotReady, model;
        }
      } else if version != latestVersion {
        return NotReady, model;
      }
      return Ok, model;
    }

    method JoinHandler(f: Name) returns (r: Reply)
      modifies this`sessions
      ensures (Value(), r) == Join(old(Value()), f)
    {
      if f !in sessions {
        return Error;
      }
      if !sessions[f].joined {
        sessions := sessions[f := sessions[f].(joined := true)];
      } else if sessions[f].quitted {
        return Error;
      }
      return Ok;
    }

    method QuitHandler(f: Name) returns (r: Reply)
      modifies this`sessions
      ensures (Value(), r) == Quit(old(Value()), f)
    {
      if f !in sessions {
        return Error;
      }
      if !sessions[f].joined {
        return Error;
      }
      sessions := sessions[f := sessions[f].(quitted := true)];
      return Ok;
    }

    method FollowerPushInfo() returns (pushed: set<Name>, unpush: set<Name>, trainEnd: set<Name>)
      ensures unpush == Unpushed(Value())
      ensures trainEnd == set f | f in sessions && sessions[f].trainEnd
      ensures pushed == set f | f in sessions && !sessions[f].trainEnd
                                  && sessions[f].latestVersion == aggregatingVersion
      ensures pushed + unpush + trainEnd == sessions.Keys
      ensures pushed !! unpush && pushed !! trainEnd && unpush !! trainEnd
    {
      pushed, unpush, trainEnd := {}, {}, {};
      var left := sessions.Keys;
      while left != {}
        invariant left <= sessions.Keys
        invariant pushed + unpush + trainEnd == sessions.Keys - left
        invariant trainEnd == set f | f in sessions.Keys - left && sessions[f].trainEnd
        invariant unpush == set f | f in sessions.Keys - left && !sessions[f].trainEnd
                                    && sessions[f].latestVersion != aggregatingVersion
        invariant pushed == set f | f in sessions.Keys - left && !sessions[f].trainEnd
                                    && sessions[f].latestVersion == aggregatingVersion
      {
        var f :| f in left;
        if sessions[f].trainEnd {
          trainEnd := trainEnd + {f};
        } else if sessions[f].latestVersion == aggregatingVersion {
          pushed := pushed + {f};
        } else {
          unpush := unpush + {f};
        }
        left := left - {f};
      }
    }
  }
}
