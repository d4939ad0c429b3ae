/** Runs of a job of any size: what the theorems about runs speak of does happen, and so does what they leave open. */
module ClusterExample {
  import opened Prelude
  import opened AllReduce
  import opened Cluster
  import opened Text
  import opened ClusterRuns
  import ClusterTheorems

  // ---------------------------------------------------------------------------------------------
  // The beginning
  // ---------------------------------------------------------------------------------------------

  ghost function Call(rank: int): JoinMessage {
    JoinMessage(rank, 0, IntText(rank), 0)
  }

  ghost function Idle(rank: int): Node {
    Node(IntText(rank), Joining(Call(rank)), 0, 0, map[])
  }

  ghost function FirstCalls(n: nat): Calls {
    map r | r in Below(n) :: Call(r)
  }

  ghost function CallSet(n: nat): set<JoinMessage> {
    set r | r in Below(n) :: Call(r)
  }

  ghost function Names(n: nat): set<string> {
    set r | r in Below(n) :: IntText(r)
  }

  ghost function Beginning(n: nat): System {
    System(n, Fresh(n), map r | r in Below(n) :: Idle(r), {}, Names(n), CallSet(n), {}, {}, {}, {}, map[], {}, map[],
           map[])
  }

  lemma BeginningIsInit(n: nat)
    requires n >= 1
    ensures Init(Beginning(n))
  {
    var s := Beginning(n);
    forall j | j in s.joins
      ensures j.rank in s.nodes && s.nodes[j.rank].mode == Joining(j)
    {
      var r :| r in Below(n) && j == Call(r);
    }
    forall r | r in s.nodes
      ensures s.nodes[r] == Idle(r) && Call(r) in s.joins && IntText(r) in s.incarnations && IntText(r) != ""
    {
    }
  }

  lemma AllCallFirst(n: nat)
    requires n >= 1
    ensures AllCall(Beginning(n), FirstCalls(n))
  {
    var s, calls := Beginning(n), FirstCalls(n);
    forall r | r in calls
      ensures CallsNow(s, r, calls[r])
    {
      assert calls[r] == Call(r) && s.nodes[r] == Idle(r) && Call(r) in s.joins && IntText(r) != "";
    }
  }

  /** No join was called and no name drawn since all ranks joined first. */
  ghost predicate Named(s: System, n: nat) {
    && s.world == n && s.ids == {"session"} && s.joins == CallSet(n) && s.incarnations == Names(n)
    && s.coordinator.session == Some(Session("session", Seats(FirstCalls(n), n), true, 0))
    && s.started == map["session" := 0] && s.nodes.Keys == Below(n)
    && forall r | r in s.nodes :: s.nodes[r].incarnation == IntText(r)
  }

  lemma FirstStepsAreZero(n: nat, least: int)
    requires IsLowest(StepsOf(FirstCalls(n)), least)
    ensures least == 0
  {
  }

  /** All ranks are together at step 0 of their first session. */
  lemma Begun(states: States, n: nat) returns (s: System)
    requires Kept(states) && n >= 1 && states(Beginning(n))
    ensures states(s) && Named(s, n) && Together(s, "session", 0, 0)
  {
    AllCallFirst(n);
    var least;
    s, least := AllJoin(states, Beginning(n), FirstCalls(n), "session");
    FirstStepsAreZero(n, least);
    ResumedTogether(s, "session", 0);
    JoinedIsNamed(s, n);
  }

  lemma JoinedIsNamed(s: System, n: nat)
    requires s.world == n && s.nodes.Keys == Below(n) && s.joins == CallSet(n) && s.incarnations == Names(n)
    requires s.ids == {} + {"session"} && s.started == map[]["session" := 0]
    requires s.coordinator.session == Some(Session("session", Seats(FirstCalls(n), n), true, 0))
    requires forall r | r in s.nodes :: r in Beginning(n).nodes && s.nodes[r].incarnation == Beginning(n).nodes[r].incarnation
    ensures Named(s, n)
  {
  }

  lemma StillNamed(s: System, t: System, n: nat)
    requires Named(s, n) && SameNames(s, t)
    ensures Named(t, n)
  {
  }

  lemma SomeRun(states: States, n: nat, k: nat) returns (s: System)
    requires Kept(states) && n >= 1 && states(Beginning(n))
    ensures states(s) && Named(s, n) && Together(s, "session", 0, k)
  {
    var first := Begun(states, n);
    s := MoreSteps(states, first, "session", 0, 0, k);
    StillNamed(first, s, n);
  }

  // ---------------------------------------------------------------------------------------------
  // Late duplicates
  // ---------------------------------------------------------------------------------------------

  /** Late duplicates of one rank's contributions to steps 1 to `k`, when 128 later steps are finished. */
  lemma {:induction false} DuplicatesPileUp(states: States, s: System, n: nat, k: nat) returns (t: System)
    requires Kept(states) && states(s) && Together(s, "session", 0, n) && s.world >= 2
    requires k <= MAX_PENDING && k + CACHE_WIDTH <= n
    ensures states(t) && Delivered(s, t)
    ensures t.coordinator.completed == s.coordinator.completed && t.coordinator.rounds.Keys == Between(0, k)
  {
    if k == 0 {
      t := s;
      assert s.coordinator.rounds.Keys == {};
    } else {
      var u := DuplicatesPileUp(states, s, n, k - 1);
      BetweenSize(0, k - 1);
      assert |u.coordinator.rounds| == |u.coordinator.rounds.Keys|;
      assert FirstOf(k, 0) == map[];
      assert Holds(s.sent, "session", k, s.world);
      t := NextArrives(states, u, "session", k, 0);
    }
  }

  lemma FullTable(c: State, m: ReduceMessage)
    requires Admits(c, m.session) && m.step >= 1 && 0 <= m.rank < c.world
    requires m.step !in c.completed && m.step !in c.rounds && |c.rounds| >= MAX_PENDING
    ensures Handle(c, Request(m)).outcome == TooManyPending
  {
  }

  /** After 256 steps, duplicates of one rank's first 128 contributions leave no room for its next one. */
  lemma TableFills(states: States, n: nat) returns (s: System)
    requires Kept(states) && n >= 2 && states(Beginning(n))
    ensures states(s) && s.world == n && Running(s, "session") && s.nodes[0].step == 256
    ensures ReduceMessage(257, 0, "session") in s.sent
    ensures Handle(s.coordinator, Request(ReduceMessage(257, 0, "session"))).outcome == TooManyPending
  {
    s := SomeRun(states, n, 256);
    s := DuplicatesPileUp(states, s, 256, 128);
    Reaches(states, s, SendReduce(0));
    s := Apply(s, SendReduce(0));
    BetweenSize(0, 128);
    assert |s.coordinator.rounds| == |s.coordinator.rounds.Keys|;
    FullTable(s.coordinator, ReduceMessage(257, 0, "session"));
  }

  /** Late duplicates of all contributions, newest step first, bring back every step after `k`. */
  lemma {:induction false} StepsComeBack(states: States, s: System, n: nat, k: nat) returns (t: System)
    requires Kept(states) && states(s) && Together(s, "session", 0, n) && k <= n
    ensures states(t) && Delivered(s, t) && t.coordinator.rounds == map[]
    ensures t.coordinator.completed.Keys == Between(Min(k, Max(0, n - CACHE_WIDTH)), n)
    decreases n - k
  {
    if k >= Max(0, n - CACHE_WIDTH) {
      t := s;
    } else {
      t := StepsComeBack(states, s, n, k + 1);
      assert Holds(t.sent, "session", k + 1, t.world);
      var average;
      t, average := AllArrive(states, t, "session", k + 1);
    }
  }

  lemma EveryStepCached(states: States, n: nat, k: nat) returns (s: System)
    requires Kept(states) && n >= 1 && states(Beginning(n))
    ensures states(s) && s.world == n
    ensures s.coordinator.completed.Keys == Between(0, k) && |s.coordinator.completed| == k
  {
    s := SomeRun(states, n, k);
    s := StepsComeBack(states, s, k, 0);
    BetweenSize(0, k);
    assert |s.coordinator.completed| == |s.coordinator.completed.Keys|;
  }

  // ---------------------------------------------------------------------------------------------
  // The runs
  // ---------------------------------------------------------------------------------------------

  /** The runs from the beginning. */
  lemma Starts(n: nat) returns (run: seq<System>, actions: seq<Action>)
    requires n >= 1
    ensures IsRun(run, actions) && Follows(run, actions, Beginning(n)) && Kept(s => Follows(run, actions, s))
  {
    run, actions := [Beginning(n)], [];
    BeginningIsInit(n);
    FollowsItself(run, actions);
    FollowsIsKept(run, actions);
  }

  /** For every number of ranks and of steps there is a run in which all ranks join, reduce and save all steps. */
  lemma StepsComplete(n: nat, k: nat) returns (run: seq<System>, actions: seq<Action>)
    requires n >= 1
    ensures IsRun(run, actions) && run[|actions|].world == n && run[|actions|].nodes.Keys == Below(n)
    ensures forall r | r in run[|actions|].nodes ::
              var node := run[|actions|].nodes[r];
              && node.step == node.disk == k
              && forall j | 1 <= j <= k :: j in node.accepted && node.accepted[j] == TrueAverage(Gradient, j, n)
  {
    run, actions := Starts(n);
    var s := SomeRun(state => Follows(run, actions, state), n, k);
    run, actions := RunTo(run, actions, s);
    forall r | r in run[|actions|].nodes
      ensures var node := run[|actions|].nodes[r];
              forall j | 1 <= j <= node.step :: j in node.accepted && node.accepted[j] == TrueAverage(Gradient, j, n)
    {
      AcceptedAll(run, actions, r, n);
    }
  }

  lemma AcceptedAll(run: seq<System>, actions: seq<Action>, r: int, n: nat)
    requires IsRun(run, actions) && r in run[|actions|].nodes && run[|actions|].world == n >= 1
    ensures var node := run[|actions|].nodes[r];
            forall j | 1 <= j <= node.step :: j in node.accepted && node.accepted[j] == TrueAverage(Gradient, j, n)
  {
    ClusterTheorems.NoGaps(run, actions, |actions|, r);
  }

  /** The pending table can fill up: for every number of ranks above one there is a run in which a working rank's request
      is refused for too many pending rounds, although no process failed and every message arrived. */
  lemma WorkingRankIsRefused(n: nat) returns (run: seq<System>, actions: seq<Action>)
    requires n >= 2
    ensures IsRun(run, actions)
    ensures var s := run[|actions|];
            && s.world == n && 0 in s.nodes && s.nodes[0].mode.Training? && s.nodes[0].step == 256
            && CurrentRequest(s, 0) in s.sent
            && Handle(s.coordinator, Request(CurrentRequest(s, 0))).outcome == TooManyPending
  {
    run, actions := Starts(n);
    var s := TableFills(state => Follows(run, actions, state), n);
    run, actions := RunTo(run, actions, s);
  }

  /** The cache is not bounded: for every number of ranks and of steps there is a run that ends with all steps cached. */
  lemma CacheHoldsEveryStep(n: nat, k: nat) returns (run: seq<System>, actions: seq<Action>)
    requires n >= 1
    ensures IsRun(run, actions) && run[|actions|].world == n
    ensures run[|actions|].coordinator.completed.Keys == Between(0, k)
    ensures |run[|actions|].coordinator.completed| == k
  {
    run, actions := Starts(n);
    var s := EveryStepCached(state => Follows(run, actions, state), n, k);
    run, actions := RunTo(run, actions, s);
  }
}
