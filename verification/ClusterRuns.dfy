/** How runs go on: joining and training of all ranks from any state in which all call a new coordinator, one enabled action
    at a time. */
module ClusterRuns {
  import opened Prelude
  import opened AllReduce
  import opened Cluster

  // ---------------------------------------------------------------------------------------------
  // Longer runs
  // ---------------------------------------------------------------------------------------------

  /** Some run that goes on from this one ends here. */
  ghost predicate Follows(run: seq<System>, actions: seq<Action>, s: System) {
    exists longer, more :: IsRun(longer, more) && run <= longer && actions <= more && longer[|more|] == s
  }

  type States = System -> bool

  /** A set of states that every action keeps. */
  ghost predicate Kept(states: States) {
    forall s, a | states(s) && Enabled(s, a) :: states(Apply(s, a))
  }

  lemma StepOfLonger(run: seq<System>, actions: seq<Action>, a: Action, i: nat)
    requires IsRun(run, actions) && Enabled(run[|actions|], a) && i <= |actions|
    ensures var longer, more := run + [Apply(run[|actions|], a)], actions + [a];
            Enabled(longer[i], more[i]) && longer[i + 1] == Apply(longer[i], more[i])
  {
    if i < |actions| {
      assert Enabled(run[i], actions[i]) && run[i + 1] == Apply(run[i], actions[i]);
    }
  }

  lemma Extended(run: seq<System>, actions: seq<Action>, a: Action)
    requires IsRun(run, actions) && Enabled(run[|actions|], a)
    ensures IsRun(run + [Apply(run[|actions|], a)], actions + [a])
  {
    var longer, more := run + [Apply(run[|actions|], a)], actions + [a];
    assert longer[0] == run[0];
    forall i | 0 <= i < |more|
      ensures Enabled(longer[i], more[i]) && longer[i + 1] == Apply(longer[i], more[i])
    {
      StepOfLonger(run, actions, a, i);
    }
  }

  lemma FollowsIsKept(run: seq<System>, actions: seq<Action>)
    ensures Kept(s => Follows(run, actions, s))
  {
    forall s, a | Follows(run, actions, s) && Enabled(s, a)
      ensures Follows(run, actions, Apply(s, a))
    {
      OneMoreAction(run, actions, s, a);
    }
  }

  lemma OneMoreAction(run: seq<System>, actions: seq<Action>, s: System, a: Action)
    requires Follows(run, actions, s) && Enabled(s, a)
    ensures Follows(run, actions, Apply(s, a))
  {
    var longer, more :| IsRun(longer, more) && run <= longer && actions <= more && longer[|more|] == s;
    Extended(longer, more, a);
    var next, taken := longer + [Apply(s, a)], more + [a];
    assert IsRun(next, taken) && run <= next && actions <= taken && next[|taken|] == Apply(s, a);
  }

  lemma FollowsItself(run: seq<System>, actions: seq<Action>)
    requires IsRun(run, actions)
    ensures Follows(run, actions, run[|actions|])
  {
  }

  /** The run behind it. */
  lemma RunTo(run: seq<System>, actions: seq<Action>, s: System) returns (longer: seq<System>, more: seq<Action>)
    requires Follows(run, actions, s)
    ensures IsRun(longer, more) && run <= longer && actions <= more && longer[|more|] == s
  {
    longer, more :| IsRun(longer, more) && run <= longer && actions <= more && longer[|more|] == s;
  }

  lemma Reaches(states: States, s: System, a: Action)
    requires Kept(states) && states(s) && Enabled(s, a)
    ensures states(Apply(s, a))
  {
  }

  // ---------------------------------------------------------------------------------------------
  // Fresh names
  // ---------------------------------------------------------------------------------------------

  lemma {:induction false} LongerThanAll(names: set<string>) returns (n: nat)
    ensures forall name | name in names :: |name| <= n
    decreases |names|
  {
    if |names| == 0 {
      n := 0;
    } else {
      var name := AnyOf(names);
      var rest := LongerThanAll(names - {name});
      n := Max(rest, |name|);
    }
  }

  lemma FreshName(names: set<string>) returns (name: string)
    ensures name != "" && name !in names
  {
    var n := LongerThanAll(names);
    name := seq(n + 1, _ => 'x');
  }

  // ---------------------------------------------------------------------------------------------
  // All ranks join
  // ---------------------------------------------------------------------------------------------

  /** The join call each rank is making. */
  type Calls = map<int, JoinMessage>

  ghost predicate CallsNow(s: System, rank: int, call: JoinMessage) {
    && rank in s.nodes && s.nodes[rank].mode == Joining(call)
    && call.rank == rank && 0 <= call.step == s.nodes[rank].step && call.incarnation != "" && call in s.joins
  }

  /** All ranks call a coordinator that is new. */
  ghost predicate AllCall(s: System, calls: Calls) {
    && s.world >= 1 && s.coordinator == Fresh(s.world) && s.started.Keys <= s.ids
    && s.nodes.Keys == calls.Keys == Below(s.world)
    && forall r | r in calls :: CallsNow(s, r, calls[r])
  }

  /** The seats of the first `k` ranks. */
  ghost function Seats(calls: Calls, k: nat): map<int, JoinRequest> {
    map r | r in calls && r < k :: JoinOf(calls[r])
  }

  lemma SeatsUpTo(calls: Calls, n: nat, k: nat)
    requires calls.Keys == Below(n) && k <= n
    ensures |Seats(calls, k)| == k
  {
    assert Seats(calls, k).Keys == Below(k) && |Seats(calls, k)| == |Seats(calls, k).Keys|;
    BelowSize(k);
  }

  lemma NextSeats(calls: Calls, n: nat, k: nat)
    requires calls.Keys == Below(n) && k < n
    ensures Seats(calls, k)[k := JoinOf(calls[k])] == Seats(calls, k + 1) && k !in Seats(calls, k)
  {
  }

  /** The step at which a session of all starts: the last rank's own, or a lower one. */
  ghost function Least(calls: Calls, n: nat): int
    requires n > 0 && n - 1 in calls
  {
    LeastStep(Seats(calls, n), n, calls[n - 1].step)
  }

  /** A session in which the first `k` of `n` ranks have their seats. */
  ghost function Filling(calls: Calls, id: string, n: nat, k: nat): Session
    requires n > 0 && n - 1 in calls
  {
    Session(id, Seats(calls, k), k == n, if k == n then Least(calls, n) else 0)
  }

  lemma SeatTaken(calls: Calls, id: string, n: nat, k: nat)
    requires calls.Keys == Below(n) && k < n && calls[k].rank == k
    ensures Enrol(Filling(calls, id, n, k), n, JoinOf(calls[k])) == Filling(calls, id, n, k + 1)
  {
    NextSeats(calls, n, k);
    SeatsUpTo(calls, n, k + 1);
    TakesSeat(Filling(calls, id, n, k), n, JoinOf(calls[k]), Seats(calls, k + 1));
  }

  lemma TakesSeat(session: Session, n: nat, req: JoinRequest, members: map<int, JoinRequest>)
    requires !session.started && req.rank !in session.members && members == session.members[req.rank := req]
    ensures Enrol(session, n, req) ==
            if |members| == n then Session(session.id, members, true, LeastStep(members, n, req.step))
            else Session(session.id, members, false, session.step)
  {
  }

  lemma FirstSeat(calls: Calls, id: string, n: nat)
    requires n >= 1 && calls.Keys == Below(n) && calls[0].rank == 0 && calls[0].step >= 0 && calls[0].incarnation != ""
    ensures Join(Fresh(n), JoinOf(calls[0]), id) ==
            Rendezvous(State(n, map[], map[], Some(Filling(calls, id, n, 1))), id)
  {
    SeatTaken(calls, id, n, 0);
    assert Seats(calls, 0) == map[];
  }

  lemma NextSeat(calls: Calls, id: string, n: nat, k: nat, other: string)
    requires calls.Keys == Below(n) && 1 <= k < n
    requires calls[k].rank == k && calls[k].step >= 0 && calls[k].incarnation != ""
    ensures Join(State(n, map[], map[], Some(Filling(calls, id, n, k))), JoinOf(calls[k]), other) ==
            Rendezvous(State(n, map[], map[], Some(Filling(calls, id, n, k + 1))), id)
  {
    SeatTaken(calls, id, n, k);
    NextSeats(calls, n, k);
  }

  /** The calls of the first `k` ranks wait in a session. */
  ghost predicate Wait(joinWaits: set<(JoinMessage, string)>, calls: Calls, id: string, k: nat) {
    forall r | r in calls && 0 <= r < k :: (calls[r], id) in joinWaits
  }

  lemma OneMoreWaits(joinWaits: set<(JoinMessage, string)>, calls: Calls, id: string, k: nat)
    requires k in calls && Wait(joinWaits, calls, id, k)
    ensures Wait(joinWaits + {(calls[k], id)}, calls, id, k + 1)
  {
  }

  /** Since `s` the first `k` ranks have got their seats and wait for an answer, or for the others. */
  ghost predicate Seated(s: System, t: System, calls: Calls, id: string, k: nat)
    requires s.world > 0 && s.world - 1 in calls
  {
    && t.world == s.world && t.nodes == s.nodes && t.joins == s.joins && t.incarnations == s.incarnations
    && t.sent == s.sent && t.ids == s.ids + {id}
    && t.coordinator == State(s.world, map[], map[], Some(Filling(calls, id, s.world, k)))
    && Wait(t.joinWaits, calls, id, k)
    && t.started == if k == s.world then s.started[id := Least(calls, s.world)] else s.started
  }

  /** What handling a join call leaves, once it is known what the coordinator makes of it. */
  lemma Answers(states: States, s: System, j: JoinMessage, freshId: string, c: State, session: Session)
    returns (t: System)
    requires Kept(states) && states(s) && j in s.joins && freshId != "" && freshId !in s.ids
    requires Join(s.coordinator, JoinOf(j), freshId) == Rendezvous(c, session.id) && c.session == Some(session)
    ensures states(t) && t.coordinator == c && t.joinWaits == s.joinWaits + {(j, session.id)}
    ensures t.ids == s.ids + {session.id}
    ensures t.started == if session.started && session.id !in s.started then s.started[session.id := session.step]
                         else s.started
    ensures t.world == s.world && t.nodes == s.nodes && t.joins == s.joins && t.incarnations == s.incarnations
    ensures t.sent == s.sent
  {
    Reaches(states, s, DeliverJoin(j, freshId));
    t := Apply(s, DeliverJoin(j, freshId));
  }

  lemma SeatsStart(states: States, s: System, calls: Calls, id: string) returns (t: System)
    requires Kept(states) && states(s) && AllCall(s, calls) && id != "" && id !in s.ids
    ensures states(t) && Seated(s, t, calls, id, 1)
  {
    assert CallsNow(s, 0, calls[0]);
    FirstSeat(calls, id, s.world);
    OneMoreWaits(s.joinWaits, calls, id, 0);
    t := Answers(states, s, calls[0], id, State(s.world, map[], map[], Some(Filling(calls, id, s.world, 1))),
                 Filling(calls, id, s.world, 1));
  }

  lemma OneMoreSeat(states: States, s: System, u: System, calls: Calls, id: string, k: nat) returns (t: System)
    requires Kept(states) && states(u) && AllCall(s, calls) && id !in s.ids
    requires 1 <= k < s.world && Seated(s, u, calls, id, k)
    ensures states(t) && Seated(s, t, calls, id, k + 1)
  {
    assert CallsNow(s, k, calls[k]);
    var other := FreshName(u.ids);
    NextSeat(calls, id, s.world, k, other);
    OneMoreWaits(u.joinWaits, calls, id, k);
    t := Answers(states, u, calls[k], other, State(s.world, map[], map[], Some(Filling(calls, id, s.world, k + 1))),
                 Filling(calls, id, s.world, k + 1));
  }

  lemma {:induction false} SeatsFill(states: States, s: System, calls: Calls, id: string, k: nat) returns (t: System)
    requires Kept(states) && states(s) && AllCall(s, calls) && id != "" && id !in s.ids && 1 <= k <= s.world
    ensures states(t) && Seated(s, t, calls, id, k)
  {
    if k == 1 {
      t := SeatsStart(states, s, calls, id);
    } else {
      t := SeatsFill(states, s, calls, id, k - 1);
      t := OneMoreSeat(states, s, t, calls, id, k - 1);
    }
  }

  /** Of these nodes the first `k` have taken up the session. */
  ghost predicate TakenUp(nodes: map<int, Node>, now: map<int, Node>, id: string, step: int, k: nat) {
    && now.Keys == nodes.Keys
    && forall r | r in nodes :: now[r] == if r < k then Resumed(nodes[r], id, step) else nodes[r]
  }

  lemma TakenUpNext(nodes: map<int, Node>, now: map<int, Node>, id: string, step: int, k: nat)
    requires TakenUp(nodes, now, id, step, k) && k in nodes
    ensures now[k] == nodes[k]
    ensures TakenUp(nodes, now[k := Resumed(nodes[k], id, step)], id, step, k + 1)
  {
  }

  lemma OneTakesUp(states: States, s: System, rank: int, call: JoinMessage, id: string) returns (t: System)
    requires Kept(states) && states(s) && rank in s.nodes && s.nodes[rank].mode == Joining(call)
    requires (call, id) in s.joinWaits && id in s.started && 0 <= s.started[id] <= s.nodes[rank].step
    ensures states(t) && t == s.(nodes := t.nodes, visited := t.visited)
    ensures t.nodes == s.nodes[rank := Resumed(s.nodes[rank], id, s.started[id])]
  {
    Reaches(states, s, AcceptJoin(rank, id));
    t := Apply(s, AcceptJoin(rank, id));
  }

  /** All ranks wait in a session that started, at a step none of them is below. */
  ghost predicate AllAnswered(s: System, calls: Calls, id: string, least: int) {
    && id in s.started && s.started[id] == least >= 0
    && forall r | r in s.nodes ::
         r in calls && s.nodes[r].mode == Joining(calls[r]) && (calls[r], id) in s.joinWaits && least <= s.nodes[r].step
  }

  lemma {:induction false} TakeUp(states: States, s: System, calls: Calls, id: string, least: int, k: nat)
    returns (t: System)
    requires Kept(states) && states(s) && AllAnswered(s, calls, id, least) && s.nodes.Keys == Below(s.world)
    requires k <= s.world
    ensures states(t) && TakenUp(s.nodes, t.nodes, id, least, k) && t == s.(nodes := t.nodes, visited := t.visited)
  {
    if k == 0 {
      t := s;
    } else {
      var u := TakeUp(states, s, calls, id, least, k - 1);
      assert k - 1 in s.nodes;
      TakenUpNext(s.nodes, u.nodes, id, least, k - 1);
      t := OneTakesUp(states, u, k - 1, calls[k - 1], id);
    }
  }

  /** The lowest of these steps. */
  ghost predicate IsLowest(steps: map<int, int>, least: int) {
    (exists r :: r in steps && steps[r] == least) && forall r | r in steps :: least <= steps[r]
  }

  ghost function StepsOf(calls: Calls): map<int, int> {
    map r | r in calls :: calls[r].step
  }

  lemma LeastIsLowest(calls: Calls, n: nat)
    requires n >= 1 && calls.Keys == Below(n) && forall r | r in calls :: calls[r].rank == r
    ensures IsLowest(StepsOf(calls), Least(calls, n))
  {
    SeededMinimum(Seats(calls, n), n, JoinOf(calls[n - 1]));
    var r :| r in Seats(calls, n) && Seats(calls, n)[r].step == Least(calls, n);
    assert StepsOf(calls)[r] == Least(calls, n);
    forall q | q in calls
      ensures Least(calls, n) <= StepsOf(calls)[q]
    {
      assert q in Seats(calls, n);
    }
  }

  lemma SeatedIsAnswered(s: System, t: System, calls: Calls, id: string)
    requires AllCall(s, calls) && Seated(s, t, calls, id, s.world)
    ensures AllAnswered(t, calls, id, Least(calls, s.world))
  {
    forall r | r in calls
      ensures calls[r].rank == r && 0 <= calls[r].step
    {
      assert CallsNow(s, r, calls[r]);
    }
    LeastIsLowest(calls, s.world);
    forall r | r in t.nodes
      ensures r in calls && t.nodes[r].mode == Joining(calls[r]) && (calls[r], id) in t.joinWaits
      ensures Least(calls, s.world) <= t.nodes[r].step
    {
      assert CallsNow(s, r, calls[r]) && StepsOf(calls)[r] == calls[r].step;
    }
  }

  lemma AllTakenUp(nodes: map<int, Node>, t: System, id: string, least: int)
    requires TakenUp(nodes, t.nodes, id, least, t.world) && nodes.Keys == Below(t.world)
    requires t.world >= 1 && t.coordinator.world == t.world && Open(t.coordinator, id)
    ensures Running(t, id) && AllAt(t, least)
    ensures forall r | r in t.nodes :: r in nodes && t.nodes[r].incarnation == nodes[r].incarnation
  {
  }

  /** All ranks that call a new coordinator get seats in one session, which starts at the lowest step, and take it up. */
  lemma AllJoin(states: States, s: System, calls: Calls, id: string) returns (t: System, least: int)
    requires Kept(states) && states(s) && AllCall(s, calls) && id != "" && id !in s.ids
    ensures states(t) && Running(t, id) && AllAt(t, least) && least >= 0 && IsLowest(StepsOf(calls), least)
    ensures t.coordinator == State(s.world, map[], map[], Some(Session(id, Seats(calls, s.world), true, least)))
    ensures t.world == s.world && t.ids == s.ids + {id} && t.joins == s.joins && t.incarnations == s.incarnations
    ensures t.started == s.started[id := least] && t.sent == s.sent
    ensures forall r | r in t.nodes :: r in s.nodes && t.nodes[r].incarnation == s.nodes[r].incarnation
  {
    var u := SeatsFill(states, s, calls, id, s.world);
    SeatedIsAnswered(s, u, calls, id);
    forall r | r in calls
      ensures calls[r].rank == r
    {
      assert CallsNow(s, r, calls[r]);
    }
    least := Least(calls, s.world);
    LeastIsLowest(calls, s.world);
    t := TakeUp(states, u, calls, id, least, s.world);
    AllTakenUp(s.nodes, t, id, least);
  }

  // ---------------------------------------------------------------------------------------------
  // All ranks train
  // ---------------------------------------------------------------------------------------------

  ghost predicate Open(c: State, id: string) {
    c.world >= 1 && c.session.Some? && c.session.value.id == id && c.session.value.started
  }

  /** All ranks train in one started session. */
  ghost predicate Running(s: System, id: string) {
    && s.world >= 1 && s.coordinator.world == s.world && Open(s.coordinator, id) && s.nodes.Keys == Below(s.world)
    && forall r | r in s.nodes :: s.nodes[r].mode == Training(id)
  }

  /** Nobody joined or restarted in between. */
  ghost predicate SameNames(s: System, t: System) {
    && t.world == s.world && t.ids == s.ids && t.joins == s.joins && t.incarnations == s.incarnations
    && t.started == s.started && t.coordinator.session == s.coordinator.session
    && t.nodes.Keys == s.nodes.Keys && forall r | r in s.nodes :: t.nodes[r].incarnation == s.nodes[r].incarnation
  }

  /** The set holds the contributions of the ranks below `j` to a step. */
  ghost predicate Holds(messages: set<ReduceMessage>, id: string, step: int, j: int) {
    forall r | 0 <= r < j :: ReduceMessage(step, r, id) in messages
  }

  /** All contributions were sent for every step after `first` up to `k`. */
  ghost predicate SentUpTo(sent: set<ReduceMessage>, id: string, world: nat, first: int, k: int) {
    forall step | first < step <= k :: Holds(sent, id, step, world)
  }

  /** The cache holds the last 128 of the steps after `first` up to `k`. */
  ghost predicate CachedUpTo(completed: map<int, real>, first: int, k: int) {
    completed.Keys == Window(first, k)
  }

  ghost predicate AllAt(s: System, k: int) {
    forall r | r in s.nodes :: s.nodes[r].step == s.nodes[r].disk == k
  }

  /** All ranks resumed at `first` and finished and saved step `k`, and no round is pending. */
  ghost predicate Together(s: System, id: string, first: nat, k: int) {
    && Running(s, id) && SentUpTo(s.sent, id, s.world, first, k) && AllAt(s, k) && first <= k
    && s.coordinator.rounds == map[] && CachedUpTo(s.coordinator.completed, first, k)
  }

  lemma ResumedTogether(s: System, id: string, least: nat)
    requires Running(s, id) && AllAt(s, least) && s.coordinator.rounds == map[] && s.coordinator.completed == map[]
    ensures Together(s, id, least, least)
  {
    assert s.coordinator.completed.Keys == Window(least, least);
  }

  /** The contributions of the first `j` ranks to a step. */
  ghost function FirstOf(step: int, j: nat): Values {
    map r | r in Below(j) :: Gradient(step, r)
  }

  lemma FirstGrow(step: int, j: nat)
    ensures |FirstOf(step, j)| == j && FirstOf(step, j)[j := Gradient(step, j)] == FirstOf(step, j + 1)
    ensures |FirstOf(step, j + 1)| == j + 1
  {
    assert FirstOf(step, j).Keys == Below(j) && |FirstOf(step, j)| == |FirstOf(step, j).Keys|;
    assert FirstOf(step, j + 1).Keys == Below(j + 1) && |FirstOf(step, j + 1)| == |FirstOf(step, j + 1).Keys|;
    BelowSize(j);
    BelowSize(j + 1);
    var more := FirstOf(step, j)[j := Gradient(step, j)];
    assert more.Keys == FirstOf(step, j + 1).Keys;
    assert forall r | r in more :: more[r] == FirstOf(step, j + 1)[r];
  }

  /** The next rank's contribution joins those of the ranks below it. */
  lemma NextEnters(c: State, id: string, step: int, j: nat)
    requires Open(c, id) && step >= 1 && step !in c.completed && j < c.world
    requires PendingValues(c, step) == FirstOf(step, j) && (step in c.rounds || |c.rounds| < MAX_PENDING)
    ensures Handle(c, Request(ReduceMessage(step, j, id))) == Handled(Contribute(c, step, FirstOf(step, j + 1)), Waiting)
  {
    Enters(c, Request(ReduceMessage(step, j, id)));
    FirstGrow(step, j);
  }

  /** A round that is not full stays pending. */
  lemma StaysOpen(c: State, step: int, values: Values) returns (d: State)
    requires |values| != c.world
    ensures Contribute(c, step, values) == d && d == c.(rounds := d.rounds)
    ensures d.rounds.Keys == c.rounds.Keys + {step} && PendingValues(d, step) == values
  {
    d := Opened(c, step, values);
    OpenedRound(c, step, values);
  }

  lemma OpenedRound(c: State, step: int, values: Values)
    ensures var d := Opened(c, step, values);
            d.rounds.Keys == c.rounds.Keys + {step} && PendingValues(d, step) == values
  {
  }

  /** Closing the only pending round leaves none. */
  lemma ClosesOnly(c: State, step: int, average: real) returns (closed: State)
    requires c.rounds.Keys <= {step}
    ensures closed == Closed(c, step, average) && closed == c.(rounds := map[], completed := closed.completed)
    ensures closed.completed.Keys == c.completed.Keys + {step} - {step - CACHE_WIDTH}
    ensures closed.completed[step] == average
  {
    closed := Closed(c, step, average);
    ClosedKeys(c, step, average);
    assert closed.rounds == map[];
  }

  lemma FullRoundCloses(c: State, step: int, values: Values) returns (average: real)
    requires c.world == |values| >= 1
    ensures Contribute(c, step, values) == Closed(c, step, average)
  {
    average := Average(values, c.world);
  }

  /** A full round closes. */
  lemma FullCloses(c: State, step: int, values: Values) returns (closed: State, average: real)
    requires c.world == |values| >= 1 && c.rounds.Keys <= {step}
    ensures Contribute(c, step, values) == closed
    ensures closed == c.(rounds := map[], completed := closed.completed)
    ensures closed.completed.Keys == c.completed.Keys + {step} - {step - CACHE_WIDTH}
    ensures closed.completed[step] == average
  {
    average := FullRoundCloses(c, step, values);
    closed := ClosesOnly(c, step, average);
  }

  lemma OnlyOne(rounds: map<int, Values>, step: int)
    requires rounds.Keys <= {step}
    ensures |rounds| < MAX_PENDING
  {
    SubsetSize(rounds.Keys, {step});
    assert |rounds| == |rounds.Keys|;
  }

  /** Everything a delivery of a contribution leaves alone. */
  ghost predicate Delivered(s: System, t: System) {
    && t.world == s.world && t.nodes == s.nodes && t.sent == s.sent && s.waits <= t.waits
    && t.ids == s.ids && t.joins == s.joins && t.incarnations == s.incarnations && t.started == s.started
    && t.coordinator.world == s.coordinator.world && t.coordinator.session == s.coordinator.session
  }

  lemma Arrives(states: States, s: System, id: string, step: int, rank: int, c: State) returns (t: System)
    requires Kept(states) && states(s) && ReduceMessage(step, rank, id) in s.sent
    requires Handle(s.coordinator, Request(ReduceMessage(step, rank, id))) == Handled(c, Waiting)
    requires c.world == s.coordinator.world && c.session == s.coordinator.session
    ensures states(t) && Delivered(s, t) && t.coordinator == c && ReduceMessage(step, rank, id) in t.waits
    ensures step in c.completed ==>
              (id, step) in t.finished && c.completed[step] in t.finished[(id, step)]
  {
    Reaches(states, s, DeliverReduce(ReduceMessage(step, rank, id)));
    t := Apply(s, DeliverReduce(ReduceMessage(step, rank, id)));
  }

  /** The contribution of rank `j` arrives after those of the ranks below it, and others are missing. */
  lemma NextArrives(states: States, s: System, id: string, step: int, j: nat) returns (t: System)
    requires Kept(states) && states(s) && Open(s.coordinator, id) && step >= 1 && j + 1 < s.coordinator.world
    requires step !in s.coordinator.completed && ReduceMessage(step, j, id) in s.sent
    requires PendingValues(s.coordinator, step) == FirstOf(step, j)
    requires step in s.coordinator.rounds || |s.coordinator.rounds| < MAX_PENDING
    ensures states(t) && Delivered(s, t) && ReduceMessage(step, j, id) in t.waits
    ensures t.coordinator.completed == s.coordinator.completed
    ensures t.coordinator.rounds.Keys == s.coordinator.rounds.Keys + {step}
    ensures PendingValues(t.coordinator, step) == FirstOf(step, j + 1)
  {
    NextEnters(s.coordinator, id, step, j);
    FirstGrow(step, j);
    var d := StaysOpen(s.coordinator, step, FirstOf(step, j + 1));
    t := Arrives(states, s, id, step, j, d);
  }

  lemma HoldsOneMore(messages: set<ReduceMessage>, more: set<ReduceMessage>, id: string, step: int, j: int)
    requires Holds(messages, id, step, j) && messages <= more && ReduceMessage(step, j, id) in more
    ensures Holds(more, id, step, j + 1)
  {
  }

  /** Since `s` the contributions of the first `j` ranks to one step arrived, and no others. */
  ghost predicate Arrived(s: System, t: System, id: string, step: int, j: nat) {
    && Delivered(s, t) && Holds(t.waits, id, step, j)
    && t.coordinator.completed == s.coordinator.completed && t.coordinator.rounds.Keys <= {step}
    && PendingValues(t.coordinator, step) == FirstOf(step, j)
  }

  lemma OneArrives(states: States, s: System, u: System, id: string, step: int, j: nat) returns (t: System)
    requires Kept(states) && states(u) && Open(s.coordinator, id) && step >= 1 && Arrived(s, u, id, step, j)
    requires j + 1 < s.coordinator.world && step !in s.coordinator.completed && ReduceMessage(step, j, id) in s.sent
    ensures states(t) && Arrived(s, t, id, step, j + 1)
  {
    OnlyOne(u.coordinator.rounds, step);
    t := NextArrives(states, u, id, step, j);
    HoldsOneMore(u.waits, t.waits, id, step, j);
  }

  /** The contributions of the first `j` ranks arrive, and others are missing. */
  lemma {:induction false} SomeArrive(states: States, s: System, id: string, step: int, j: nat) returns (t: System)
    requires Kept(states) && states(s) && Open(s.coordinator, id) && s.coordinator.rounds == map[] && step >= 1
    requires j < s.coordinator.world && step !in s.coordinator.completed && Holds(s.sent, id, step, j)
    ensures states(t) && Arrived(s, t, id, step, j)
  {
    if j == 0 {
      t := s;
      assert FirstOf(step, 0) == map[];
    } else {
      var u := SomeArrive(states, s, id, step, j - 1);
      assert ReduceMessage(step, j - 1, id) in s.sent;
      t := OneArrives(states, s, u, id, step, j - 1);
    }
  }

  /** The last contribution arrives. */
  lemma LastArrives(states: States, s: System, id: string, step: int, j: nat) returns (t: System, average: real)
    requires Kept(states) && states(s) && Open(s.coordinator, id) && step >= 1 && j + 1 == s.coordinator.world
    requires step !in s.coordinator.completed && ReduceMessage(step, j, id) in s.sent
    requires PendingValues(s.coordinator, step) == FirstOf(step, j) && s.coordinator.rounds.Keys <= {step}
    ensures states(t) && Delivered(s, t) && ReduceMessage(step, j, id) in t.waits && t.coordinator.rounds == map[]
    ensures t.coordinator.completed.Keys == s.coordinator.completed.Keys + {step} - {step - CACHE_WIDTH}
    ensures (id, step) in t.finished && average in t.finished[(id, step)]
  {
    OnlyOne(s.coordinator.rounds, step);
    NextEnters(s.coordinator, id, step, j);
    FirstGrow(step, j);
    var closed;
    closed, average := FullCloses(s.coordinator, step, FirstOf(step, j + 1));
    t := Arrives(states, s, id, step, j, closed);
  }

  /** Delivering all contributions to an unknown step completes it, whenever they arrive. */
  lemma AllArrive(states: States, s: System, id: string, step: int) returns (t: System, average: real)
    requires Kept(states) && states(s) && Running(s, id) && s.coordinator.rounds == map[] && step >= 1
    requires step !in s.coordinator.completed && Holds(s.sent, id, step, s.world)
    ensures states(t) && Delivered(s, t) && t.coordinator.rounds == map[]
    ensures t.coordinator.completed.Keys == s.coordinator.completed.Keys + {step} - {step - CACHE_WIDTH}
    ensures Holds(t.waits, id, step, s.world)
    ensures (id, step) in t.finished && average in t.finished[(id, step)]
  {
    var u := SomeArrive(states, s, id, step, s.world - 1);
    t, average := LastArrives(states, u, id, step, s.world - 1);
  }

  /** A waiting rank is woken and takes the average, saving the step. */
  lemma TakesAverage(states: States, s: System, id: string, step: int, rank: int, average: real) returns (t: System)
    requires Kept(states) && states(s) && rank in s.nodes && s.nodes[rank].mode == Training(id)
    requires s.nodes[rank].step + 1 == step && ReduceMessage(step, rank, id) in s.waits
    requires (id, step) in s.finished && average in s.finished[(id, step)]
    ensures states(t) && t == s.(nodes := t.nodes, answers := t.answers)
    ensures t.nodes == s.nodes[rank := Advanced(s.nodes[rank], average, true)]
  {
    Reaches(states, s, WakeDone(ReduceMessage(step, rank, id), average));
    var u := Apply(s, WakeDone(ReduceMessage(step, rank, id), average));
    Reaches(states, u, AcceptAverage(rank, average, true));
    t := Apply(u, AcceptAverage(rank, average, true));
  }

  /** Of the nodes of `s`, those below `j` have finished and saved the step after theirs. */
  ghost predicate AdvancedBelow(s: System, t: System, j: nat) {
    && t.nodes.Keys == s.nodes.Keys
    && forall r | r in s.nodes ::
         && t.nodes[r].mode == s.nodes[r].mode && t.nodes[r].incarnation == s.nodes[r].incarnation
         && if r < j then t.nodes[r].step == t.nodes[r].disk == s.nodes[r].step + 1 else t.nodes[r] == s.nodes[r]
  }

  lemma {:induction false} SomeTake(states: States, s: System, id: string, k: int, average: real, j: nat) returns (t: System)
    requires Kept(states) && states(s) && Running(s, id) && AllAt(s, k) && j <= s.world
    requires Holds(s.waits, id, k + 1, s.world)
    requires (id, k + 1) in s.finished && average in s.finished[(id, k + 1)]
    ensures states(t) && t == s.(nodes := t.nodes, answers := t.answers) && AdvancedBelow(s, t, j)
  {
    if j == 0 {
      t := s;
    } else {
      var u := SomeTake(states, s, id, k, average, j - 1);
      t := TakesAverage(states, u, id, k + 1, j - 1, average);
    }
  }

  lemma {:induction false} SomeSend(states: States, s: System, id: string, k: int, j: nat) returns (t: System)
    requires Kept(states) && states(s) && Running(s, id) && AllAt(s, k) && j <= s.world
    ensures states(t) && t == s.(sent := t.sent) && s.sent <= t.sent
    ensures Holds(t.sent, id, k + 1, j)
  {
    if j == 0 {
      t := s;
    } else {
      var u := SomeSend(states, s, id, k, j - 1);
      assert CurrentRequest(u, j - 1) == ReduceMessage(k + 1, j - 1, id);
      Reaches(states, u, SendReduce(j - 1));
      t := Apply(u, SendReduce(j - 1));
    }
  }

  lemma SentOneMore(sent: set<ReduceMessage>, more: set<ReduceMessage>, id: string, world: nat, first: int, k: int)
    requires SentUpTo(sent, id, world, first, k) && sent <= more && Holds(more, id, k + 1, world)
    ensures SentUpTo(more, id, world, first, k + 1)
  {
    forall step | first < step <= k + 1
      ensures Holds(more, id, step, world)
    {
      assert step <= k ==> Holds(sent, id, step, world);
    }
  }

  lemma CachedOneMore(completed: map<int, real>, more: map<int, real>, first: int, k: int)
    requires CachedUpTo(completed, first, k) && first <= k
    requires more.Keys == completed.Keys + {k + 1} - {k + 1 - CACHE_WIDTH}
    ensures CachedUpTo(more, first, k + 1)
  {
    WindowSlides(first, k + 1);
  }

  /** One more step of all ranks. */
  lemma OneMoreStep(states: States, s: System, id: string, first: nat, k: int) returns (t: System)
    requires Kept(states) && states(s) && Together(s, id, first, k)
    ensures states(t) && SameNames(s, t) && Together(t, id, first, k + 1)
  {
    var u := SomeSend(states, s, id, k, s.world);
    SentOneMore(s.sent, u.sent, id, s.world, first, k);
    var v, average := AllArrive(states, u, id, k + 1);
    CachedOneMore(s.coordinator.completed, v.coordinator.completed, first, k);
    t := SomeTake(states, v, id, k, average, s.world);
  }

  /** Any number of steps of all ranks. */
  lemma {:induction false} MoreSteps(states: States, s: System, id: string, first: nat, k: int, more: nat)
    returns (t: System)
    requires Kept(states) && states(s) && Together(s, id, first, k)
    ensures states(t) && SameNames(s, t) && Together(t, id, first, k + more)
  {
    if more == 0 {
      t := s;
    } else {
      var u := MoreSteps(states, s, id, first, k, more - 1);
      t := OneMoreStep(states, u, id, first, k + more - 1);
    }
  }
}
