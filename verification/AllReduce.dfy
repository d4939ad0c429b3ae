/** The training coordinator as values: what the lock-protected section of each request handler
    does to the pending rounds, the completed cache and the training session. */
module AllReduce {
  import opened Prelude

  const CACHE_WIDTH := 128
  const MAX_PENDING := 128

  datatype ReduceRequest = ReduceRequest(step: int, rank: int, gradient: real, session: string)

  datatype JoinRequest = JoinRequest(rank: int, step: int, incarnation: string)

  datatype Session = Session(id: string, members: map<int, JoinRequest>, started: bool, step: int)

  /** The contributions of one round, by rank. */
  type Values = map<int, real>

  datatype State = State(
    world: nat,
    rounds: map<int, Values>,
    completed: map<int, real>,
    session: Option<Session>)

  /** How the lock section of an allreduce request ends. `Waiting` leaves the lock holding a round. */
  datatype Outcome =
    | Invalid
    | SessionChanged
    | Cached(average: real)
    | TooManyPending
    | ChangedContribution
    | Waiting

  datatype Handled = Handled(state: State, outcome: Outcome)

  /** How the lock section of a join request ends: refused, or waiting on the current session. */
  datatype Joined = Refused(state: State) | Rendezvous(state: State, id: string)

  function Fresh(world: nat): State {
    State(world, map[], map[], None)
  }

  // ---------------------------------------------------------------------------------------------
  // Averages
  // ---------------------------------------------------------------------------------------------

  /** The sum of the contributions of the ranks below `n`; a rank without one adds nothing. */
  function SumBelow(values: Values, n: nat): real {
    if n == 0 then 0.0
    else SumBelow(values, n - 1) + (if n - 1 in values then values[n - 1] else 0.0)
  }

  function Average(values: Values, world: nat): real
    requires world >= 1
  {
    SumBelow(values, world) / world as real
  }

  /** The sum of a fixed gradient function over all ranks below `n`. */
  function GradientSum(g: (int, int) -> real, step: int, n: nat): real {
    if n == 0 then 0.0 else GradientSum(g, step, n - 1) + g(step, n - 1)
  }

  /** What every rank must be told for `step` when rank r always contributes g(step, r). */
  function TrueAverage(g: (int, int) -> real, step: int, world: nat): real
    requires world >= 1
  {
    GradientSum(g, step, world) / world as real
  }

  /** Adding a rank's contribution adds its value, in whatever order the ranks are visited. */
  lemma {:induction false} SumBelowInsert(values: Values, rank: int, v: real, n: nat)
    requires rank !in values && 0 <= rank
    ensures SumBelow(values[rank := v], n) == SumBelow(values, n) + (if rank < n then v else 0.0)
  {
    if n > 0 {
      SumBelowInsert(values, rank, v, n - 1);
    }
  }

  lemma {:induction false} SumBelowIsGradientSum(values: Values, g: (int, int) -> real, step: int, n: nat)
    requires forall r | 0 <= r < n :: r in values && values[r] == g(step, r)
    ensures SumBelow(values, n) == GradientSum(g, step, n)
  {
    if n > 0 {
      SumBelowIsGradientSum(values, g, step, n - 1);
    }
  }

  // ---------------------------------------------------------------------------------------------
  // The lock section of an allreduce request
  // ---------------------------------------------------------------------------------------------

  /** A request is admitted by the session it names; without a session only an unnamed one is. */
  predicate Admits(c: State, session: string) {
    match c.session
    case Some(current) => session == current.id && current.started
    case None => session == ""
  }

  predicate WellFormed(c: State, req: ReduceRequest) {
    req.step >= 1 && 0 <= req.rank < c.world
  }

  function PendingValues(c: State, step: int): Values {
    if step in c.rounds then c.rounds[step] else map[]
  }

  /** A pending round holds these contributions. */
  function Opened(c: State, step: int, values: Values): State {
    c.(rounds := c.rounds[step := values])
  }

  /** A round is over: its average is cached, and the one 128 steps below evicted. */
  function Closed(c: State, step: int, average: real): State {
    c.(rounds := c.rounds - {step}, completed := c.completed[step := average] - {step - CACHE_WIDTH})
  }

  function Contribute(c: State, step: int, values: Values): State {
    if |values| == c.world && c.world >= 1 then Closed(c, step, Average(values, c.world))
    else Opened(c, step, values)
  }

  function Handle(c: State, req: ReduceRequest): Handled {
    if !WellFormed(c, req) then Handled(c, Invalid)
    else if !Admits(c, req.session) then Handled(c, SessionChanged)
    else if req.step in c.completed then Handled(c, Cached(c.completed[req.step]))
    else if req.step !in c.rounds && |c.rounds| >= MAX_PENDING then Handled(c, TooManyPending)
    else
      var values := PendingValues(c, req.step);
      if req.rank in values && values[req.rank] != req.gradient then Handled(c, ChangedContribution)
      else Handled(Contribute(c, req.step, values[req.rank := req.gradient]), Waiting)
  }

  // ---------------------------------------------------------------------------------------------
  // The lock section of a join request
  // ---------------------------------------------------------------------------------------------

  /** The incarnation recorded for a rank; the empty text when the rank is not a member. */
  function MemberIncarnation(members: map<int, JoinRequest>, rank: int): string {
    if rank in members then members[rank].incarnation else ""
  }

  predicate TearsDown(c: State, req: JoinRequest) {
    match c.session
    case None => true
    case Some(current) =>
      var known := MemberIncarnation(current.members, req.rank);
      known != "" && known != req.incarnation
  }

  predicate JoinWellFormed(c: State, req: JoinRequest) {
    0 <= req.rank < c.world && req.step >= 0 && req.incarnation != ""
  }

  /** The smallest of `seed` and the checkpoints of the members with rank below `n`. */
  function LeastStep(members: map<int, JoinRequest>, n: nat, seed: int): int {
    if n == 0 then seed
    else
      var least := LeastStep(members, n - 1, seed);
      if n - 1 in members && members[n - 1].step < least then members[n - 1].step else least
  }

  function Enrol(session: Session, world: nat, req: JoinRequest): Session {
    var members := if req.rank in session.members then session.members else session.members[req.rank := req];
    if !session.started && |members| == world then
      Session(session.id, members, true, LeastStep(members, world, req.step))
    else
      session.(members := members)
  }

  function Join(c: State, req: JoinRequest, freshId: string): Joined {
    if !JoinWellFormed(c, req) then Refused(c)
    else if TearsDown(c, req) then
      var session := Enrol(Session(freshId, map[], false, 0), c.world, req);
      Rendezvous(State(c.world, map[], map[], Some(session)), freshId)
    else
      var session := Enrol(c.session.value, c.world, req);
      Rendezvous(c.(session := Some(session)), session.id)
  }

  // ---------------------------------------------------------------------------------------------
  // What every request keeps
  // ---------------------------------------------------------------------------------------------

  ghost predicate IsLeastCheckpoint(step: int, members: map<int, JoinRequest>) {
    (exists r :: r in members && members[r].step == step)
    && forall r | r in members :: step <= members[r].step
  }

  ghost predicate ValidSession(session: Session, world: nat) {
    && session.id != ""
    && (forall r | r in session.members ::
          0 <= r < world && session.members[r].rank == r
          && session.members[r].step >= 0 && session.members[r].incarnation != "")
    // a session starts exactly when every rank is a member, at their least checkpoint
    && (session.started <==> |session.members| == world)
    && (session.started ==> IsLeastCheckpoint(session.step, session.members))
  }

  ghost predicate ValidRound(values: Values, world: nat) {
    0 < |values| < world && forall r | r in values :: 0 <= r < world
  }

  ghost predicate ValidTables(rounds: map<int, Values>, completed: map<int, real>, world: nat) {
    && |rounds| <= MAX_PENDING
    && rounds.Keys !! completed.Keys
    && (forall s | s in rounds :: s >= 1 && ValidRound(rounds[s], world))
    && (forall s | s in completed :: s >= 1)
  }

  ghost predicate Valid(c: State) {
    && c.world >= 1
    && ValidTables(c.rounds, c.completed, c.world)
    && (c.session.Some? ==> ValidSession(c.session.value, c.world))
    && (c.session.Some? && !c.session.value.started ==> c.rounds == map[] && c.completed == map[])
  }

  lemma ContributeKeepsTables(c: State, step: int, values: Values)
    requires ValidTables(c.rounds, c.completed, c.world) && c.world >= 1 && step >= 1 && step !in c.completed
    requires step in c.rounds || |c.rounds| < MAX_PENDING
    requires |values| > 0 && values.Keys <= Below(c.world)
    ensures var after := Contribute(c, step, values);
            ValidTables(after.rounds, after.completed, c.world)
  {
    RanksFull(values.Keys, c.world);
    var after := Contribute(c, step, values);
    if |values| == c.world {
      assert after.rounds.Keys == c.rounds.Keys - {step};
      SubsetSize(after.rounds.Keys, c.rounds.Keys);
    } else {
      assert after.rounds.Keys == c.rounds.Keys + {step};
    }
  }

  lemma PendingInRange(c: State, step: int)
    requires Valid(c)
    ensures PendingValues(c, step).Keys <= Below(c.world)
  {
    if step in c.rounds {
      assert ValidRound(c.rounds[step], c.world);
    }
  }

  lemma HandleKeepsValid(c: State, req: ReduceRequest)
    requires Valid(c)
    ensures Valid(Handle(c, req).state)
  {
    if Handle(c, req).outcome.Waiting? {
      var values := PendingValues(c, req.step)[req.rank := req.gradient];
      assert req.rank in values;
      PendingInRange(c, req.step);
      ContributeKeepsTables(c, req.step, values);
    }
  }

  lemma {:induction false} LeastStepIsLeast(members: map<int, JoinRequest>, n: nat, seed: int)
    ensures LeastStep(members, n, seed) <= seed
    ensures forall r | 0 <= r < n && r in members :: LeastStep(members, n, seed) <= members[r].step
    ensures LeastStep(members, n, seed) == seed
            || exists r :: 0 <= r < n && r in members && members[r].step == LeastStep(members, n, seed)
  {
    if n > 0 {
      LeastStepIsLeast(members, n - 1, seed);
    }
  }

  /** Seeding the minimum with the caller's checkpoint is right because the caller's own
      request is the one that filled the last seat. */
  lemma SeededMinimum(members: map<int, JoinRequest>, world: nat, req: JoinRequest)
    requires req.rank in members && members[req.rank] == req && forall r | r in members :: 0 <= r < world
    ensures IsLeastCheckpoint(LeastStep(members, world, req.step), members)
  {
    LeastStepIsLeast(members, world, req.step);
  }

  lemma EnrolKeepsValid(session: Session, world: nat, req: JoinRequest)
    requires world >= 1 && ValidSession(session, world)
    requires 0 <= req.rank < world && req.step >= 0 && req.incarnation != ""
    ensures ValidSession(Enrol(session, world, req), world)
  {
    RanksFull(session.members.Keys, world);
    if req.rank !in session.members {
      var members := session.members[req.rank := req];
      assert members.Keys == session.members.Keys + {req.rank};
      SeededMinimum(members, world, req);
    }
  }

  lemma JoinKeepsValid(c: State, req: JoinRequest, freshId: string)
    requires Valid(c) && freshId != ""
    ensures Valid(Join(c, req, freshId).state)
  {
    if JoinWellFormed(c, req) {
      if TearsDown(c, req) {
        EnrolKeepsValid(Session(freshId, map[], false, 0), c.world, req);
      } else {
        EnrolKeepsValid(c.session.value, c.world, req);
      }
    }
  }

  /** A join keeps the session it found: its name, everyone seated in it, and the tables. */
  ghost predicate KeepsSession(c: State, after: State) {
    && c.session.Some? && after.session.Some? && after.session.value.id == c.session.value.id
    && (forall r | r in c.session.value.members ::
          r in after.session.value.members && after.session.value.members[r] == c.session.value.members[r])
    && after.rounds == c.rounds && after.completed == c.completed
  }

  /** The session a rank begins when it is the first to join. */
  ghost predicate BegunBy(after: State, req: JoinRequest, world: nat, id: string) {
    && after.session.Some? && after.session.value.id == id && after.session.value.members == map[req.rank := req]
    && after.session.value.started == (world == 1)
    && after.rounds == map[] && after.completed == map[]
  }

  /** A join is refused only for its own fields. Otherwise the session goes on exactly when the rank has no seat in it,
      and then takes one, or has its seat under the same incarnation, and then nothing changes; in any other case the
      caller begins a session alone, with empty tables. */
  lemma JoinKeepsOrBegins(c: State, req: JoinRequest, freshId: string)
    requires Valid(c) && (c.session.Some? ==> c.session.value.id != freshId)
    ensures var joined := Join(c, req, freshId);
            if !(0 <= req.rank < c.world && 0 <= req.step && req.incarnation != "") then joined == Refused(c)
            else
              var keeps := c.session.Some?
                && (req.rank in c.session.value.members
                    ==> c.session.value.members[req.rank].incarnation == req.incarnation);
              && joined.Rendezvous? && joined.state.world == c.world && joined.state.session.Some?
              && joined.id == joined.state.session.value.id
              && (KeepsSession(c, joined.state) <==> keeps)
              && if !keeps then BegunBy(joined.state, req, c.world, freshId)
                 else if req.rank in c.session.value.members then joined.state == c
                 else joined.state.session.value.members == c.session.value.members[req.rank := req]
  {
    if JoinWellFormed(c, req) && c.session.Some? && req.rank in c.session.value.members {
      assert c.session.value.members[req.rank].incarnation != "";
    }
  }

  /** A rank's first contribution is entered, in a pending round or in a new one. */
  lemma Enters(c: State, req: ReduceRequest)
    requires WellFormed(c, req) && Admits(c, req.session) && req.step !in c.completed
    requires req.rank !in PendingValues(c, req.step) && (req.step in c.rounds || |c.rounds| < MAX_PENDING)
    ensures Handle(c, req) ==
            Handled(Contribute(c, req.step, PendingValues(c, req.step)[req.rank := req.gradient]), Waiting)
  {
  }

  // ---------------------------------------------------------------------------------------------
  // Retries
  // ---------------------------------------------------------------------------------------------

  lemma ContributeFinishes(c: State, step: int, values: Values)
    requires |values| == c.world >= 1
    ensures step in Contribute(c, step, values).completed
  {
  }

  lemma ContributeTwice(c: State, step: int, values: Values)
    requires step !in c.completed && !(|values| == c.world && c.world >= 1)
    ensures var after := Contribute(c, step, values);
            && step in after.rounds && step !in after.completed
            && PendingValues(after, step) == values && Contribute(after, step, values) == after
  {
    var after := Contribute(c, step, values);
    assert after.rounds[step := values] == after.rounds;
  }

  /** A retried contribution leaves the state its first handling left, so a rank counts once per round;
      if the first handling finished the round, the retry is answered from the cache. */
  lemma HandleTwice(c: State, req: ReduceRequest)
    ensures var first := Handle(c, req);
            var second := Handle(first.state, req);
            var finished := first.outcome.Waiting? && req.step in first.state.completed;
            && second.state == first.state
            && second.outcome == (if finished then Cached(first.state.completed[req.step]) else first.outcome)
  {
    if Handle(c, req).outcome.Waiting? {
      var values := PendingValues(c, req.step)[req.rank := req.gradient];
      assert req.rank in values && values[req.rank := req.gradient] == values;
      if |values| == c.world {
        ContributeFinishes(c, req.step, values);
      } else {
        ContributeTwice(c, req.step, values);
      }
    }
  }

  /** A retried join neither tears the session down nor changes it, whatever id the retry would draw. */
  lemma JoinTwice(c: State, req: JoinRequest, firstId: string, secondId: string)
    ensures Join(Join(c, req, firstId).state, req, secondId) == Join(c, req, firstId)
  {
  }

  /** A contribution to a pending round stands, whatever is requested afterwards: it stays in the round as it is, and it
      is part of the average once the round is full. */
  lemma ContributionStands(c: State, req: ReduceRequest, step: int, rank: int)
    requires c.world >= 1 && step in c.rounds && rank in c.rounds[step] && step !in c.completed
    ensures var after := Handle(c, req).state;
            if step in after.rounds then rank in after.rounds[step] && after.rounds[step][rank] == c.rounds[step][rank]
            else && req.step == step && step in after.completed
                 && exists values: Values ::
                      && rank in values && values[rank] == c.rounds[step][rank] && |values| == c.world
                      && after.completed[step] == Average(values, c.world)
  {
    var values := PendingValues(c, req.step)[req.rank := req.gradient];
    if Handle(c, req).outcome.Waiting? && req.step == step && |values| == c.world {
      assert rank in values && values[rank] == c.rounds[step][rank];
    }
  }

  // ---------------------------------------------------------------------------------------------
  // The size of the cache
  // ---------------------------------------------------------------------------------------------

  /** The steps after `first`, at most the last 128 of those up to `last`. */
  function Window(first: int, last: int): set<int> {
    Between(Max(first, last - CACHE_WIDTH), last)
  }

  lemma WindowSlides(first: int, step: int)
    requires first < step
    ensures Window(first, step) == Window(first, step - 1) + {step} - {step - CACHE_WIDTH}
    ensures |Window(first, step)| == Min(step - first, CACHE_WIDTH)
  {
    BetweenSize(Max(first, step - CACHE_WIDTH), step);
  }

  /** While a session's rounds complete in order, the cache holds exactly its last 128 steps. */
  lemma InOrderCompletionSlidesWindow(c: State, step: int, values: Values, first: int)
    requires c.completed.Keys == Window(first, step - 1) && first < step && |values| == c.world >= 1
    ensures var after := Contribute(c, step, values);
            after.completed.Keys == Window(first, step) && |after.completed| == Min(step - first, CACHE_WIDTH)
  {
    ClosedKeys(c, step, Average(values, c.world));
    WindowSlides(first, step);
  }

  lemma ClosedKeys(c: State, step: int, average: real)
    ensures Closed(c, step, average).completed.Keys == c.completed.Keys + {step} - {step - CACHE_WIDTH}
    ensures |Closed(c, step, average).completed| == |Closed(c, step, average).completed.Keys|
  {
  }

  /** In any order, a completion adds its step and drops the one 128 below, if that is there: a step that completes a
      second time after its eviction makes the cache grow. */
  lemma CompletionSize(c: State, step: int, values: Values)
    requires |values| == c.world >= 1
    ensures |Contribute(c, step, values).completed| ==
            |c.completed| + (if step in c.completed then 0 else 1) - (if step - CACHE_WIDTH in c.completed then 1 else 0)
  {
    ClosedKeys(c, step, Average(values, c.world));
    var longer := c.completed.Keys + {step};
    assert |c.completed| == |c.completed.Keys|;
    assert |longer| == |c.completed| + if step in c.completed then 0 else 1;
    assert |longer - {step - CACHE_WIDTH}| == |longer| - if step - CACHE_WIDTH in longer then 1 else 0;
  }

  // ---------------------------------------------------------------------------------------------
  // Agreement
  // ---------------------------------------------------------------------------------------------

  ghost predicate RoundFollows(values: Values, g: (int, int) -> real, step: int) {
    forall r | r in values :: values[r] == g(step, r)
  }

  /** The coordinator's tables hold only what the gradient function g dictates. */
  ghost predicate Consistent(c: State, g: (int, int) -> real) {
    && c.world >= 1
    && (forall s | s in c.rounds :: RoundFollows(c.rounds[s], g, s))
    && (forall s | s in c.completed :: c.completed[s] == TrueAverage(g, s, c.world))
  }

  lemma FullRoundAverage(values: Values, g: (int, int) -> real, step: int, world: nat)
    requires world >= 1 && values.Keys <= Below(world) && |values| == world
    requires RoundFollows(values, g, step)
    ensures Average(values, world) == TrueAverage(g, step, world)
  {
    RanksFull(values.Keys, world);
    SumBelowIsGradientSum(values, g, step, world);
  }

  lemma ContributeKeepsConsistent(c: State, step: int, values: Values, g: (int, int) -> real)
    requires Consistent(c, g) && RoundFollows(values, g, step) && values.Keys <= Below(c.world)
    ensures Consistent(Contribute(c, step, values), g)
  {
    if |values| == c.world {
      FullRoundAverage(values, g, step, c.world);
    }
  }

  /** If ranks contribute what g dictates, no lock section can ever make a wrong average available. */
  lemma HandleKeepsConsistent(c: State, req: ReduceRequest, g: (int, int) -> real)
    requires Valid(c) && Consistent(c, g) && req.gradient == g(req.step, req.rank)
    ensures Consistent(Handle(c, req).state, g)
    ensures Handle(c, req).outcome.Cached? ==> Handle(c, req).outcome.average == TrueAverage(g, req.step, c.world)
    ensures !Handle(c, req).outcome.ChangedContribution?
  {
    var values := PendingValues(c, req.step);
    assert RoundFollows(values, g, req.step);
    if Handle(c, req).outcome.Waiting? {
      PendingInRange(c, req.step);
      ContributeKeepsConsistent(c, req.step, values[req.rank := req.gradient], g);
    }
  }

  /** The coordinator after contributions of these ranks to one step, one after the other. */
  function Contributed(c: State, g: (int, int) -> real, step: int, order: seq<int>, session: string): State {
    if order == [] then c
    else
      var before := Contributed(c, g, step, order[..|order| - 1], session);
      var rank := order[|order| - 1];
      Handle(before, ReduceRequest(step, rank, g(step, rank), session)).state
  }

  ghost function FirstValues(g: (int, int) -> real, step: int, order: seq<int>): Values {
    map r | r in order :: g(step, r)
  }

  lemma NextValue(g: (int, int) -> real, step: int, order: seq<int>, rank: int)
    requires rank !in order
    ensures FirstValues(g, step, order)[rank := g(step, rank)] == FirstValues(g, step, order + [rank])
  {
  }

  lemma {:induction false} DistinctCount(g: (int, int) -> real, step: int, order: seq<int>)
    requires forall i, j | 0 <= i < j < |order| :: order[i] != order[j]
    ensures |FirstValues(g, step, order)| == |order|
  {
    if order != [] {
      var init := order[..|order| - 1];
      DistinctCount(g, step, init);
      assert order == init + [order[|order| - 1]];
      NextValue(g, step, init, order[|order| - 1]);
    }
  }

  ghost predicate DistinctRanks(order: seq<int>, world: nat) {
    && (forall i | 0 <= i < |order| :: 0 <= order[i] < world)
    && forall i, j | 0 <= i < j < |order| :: order[i] != order[j]
  }

  /** The coordinator takes work under this name: that of the started session, or none when nobody joined. */
  ghost predicate Serves(c: State, session: string) {
    if c.session.Some? then c.session.value.started && session == c.session.value.id else session == ""
  }

  /** A coordinator with these contributions to a step, and none to it before. */
  ghost function Holding(c: State, step: int, values: Values): State {
    if values == map[] then c else c.(rounds := c.rounds[step := values])
  }

  lemma NextIsEntered(c: State, g: (int, int) -> real, step: int, order: seq<int>, rank: int, session: string)
    requires step >= 1 && step !in c.completed && step !in c.rounds && |c.rounds| < 128
    requires Serves(c, session) && 0 <= rank < c.world && rank !in order
    ensures var before := Holding(c, step, FirstValues(g, step, order));
            Handle(before, ReduceRequest(step, rank, g(step, rank), session)).state
            == Contribute(before, step, FirstValues(g, step, order + [rank]))
  {
    var values := FirstValues(g, step, order);
    NextValue(g, step, order, rank);
    Enters(Holding(c, step, values), ReduceRequest(step, rank, g(step, rank), session));
    assert PendingValues(Holding(c, step, values), step) == values;
  }

  lemma HeldOpens(c: State, step: int, values: Values, more: Values)
    requires step !in c.rounds && 0 < |more| < c.world
    ensures Contribute(Holding(c, step, values), step, more) == Holding(c, step, more)
  {
  }

  lemma HeldCloses(c: State, step: int, values: Values, more: Values, average: real)
    requires step !in c.rounds && |more| == c.world >= 1 && average == Average(more, c.world)
    ensures Contribute(Holding(c, step, values), step, more) ==
            c.(completed := c.completed[step := average] - {step - 128})
  {
    assert Holding(c, step, values).rounds - {step} == c.rounds;
  }

  /** While ranks are missing, the round holds what has come, and nothing else changes. */
  lemma {:induction false} RoundFills(c: State, g: (int, int) -> real, step: int, order: seq<int>, session: string)
    requires step >= 1 && step !in c.completed && step !in c.rounds && |c.rounds| < 128
    requires Serves(c, session) && DistinctRanks(order, c.world) && |order| < c.world
    ensures Contributed(c, g, step, order, session) == Holding(c, step, FirstValues(g, step, order))
  {
    if order != [] {
      var init, rank := order[..|order| - 1], order[|order| - 1];
      assert order == init + [rank];
      RoundFills(c, g, step, init, session);
      NextIsEntered(c, g, step, init, rank, session);
      DistinctCount(g, step, order);
      HeldOpens(c, step, FirstValues(g, step, init), FirstValues(g, step, order));
    }
  }

  lemma FullCloses(c: State, g: (int, int) -> real, step: int, init: seq<int>, order: seq<int>)
    requires step !in c.rounds && DistinctRanks(order, c.world)
    requires |FirstValues(g, step, order)| == c.world >= 1
    ensures Contribute(Holding(c, step, FirstValues(g, step, init)), step, FirstValues(g, step, order)) ==
            c.(completed := c.completed[step := TrueAverage(g, step, c.world)] - {step - 128})
  {
    var values := FirstValues(g, step, order);
    FullRoundAverage(values, g, step, c.world);
    HeldCloses(c, step, FirstValues(g, step, init), values, TrueAverage(g, step, c.world));
  }

  /** In whatever order the ranks contribute to an unknown step, the last of them completes it with the average of all,
      and no other round changes. */
  lemma RoundInAnyOrder(c: State, g: (int, int) -> real, step: int, order: seq<int>, session: string)
    requires step >= 1 && step !in c.completed && step !in c.rounds && |c.rounds| < 128
    requires Serves(c, session) && DistinctRanks(order, c.world) && |order| == c.world >= 1
    ensures Contributed(c, g, step, order, session) ==
            c.(completed := c.completed[step := TrueAverage(g, step, c.world)] - {step - 128})
  {
    var init, rank := order[..|order| - 1], order[|order| - 1];
    assert order == init + [rank];
    DistinctCount(g, step, order);
    RoundFills(c, g, step, init, session);
    NextIsEntered(c, g, step, init, rank, session);
    FullCloses(c, g, step, init, order);
  }

  lemma JoinKeepsConsistent(c: State, req: JoinRequest, freshId: string, g: (int, int) -> real)
    requires Consistent(c, g)
    ensures Consistent(Join(c, req, freshId).state, g)
  {
  }
}
