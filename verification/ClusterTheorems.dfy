/** What every run of the training job keeps: agreement, lockstep, cache sufficiency, no gaps. */
module ClusterTheorems {
  import opened Prelude
  import opened AllReduce
  import opened Cluster
  import opened ClusterInvariant

  // ---------------------------------------------------------------------------------------------
  // Parts of the invariant, one at a time
  // ---------------------------------------------------------------------------------------------

  /** What was sent and finished so far. */
  ghost predicate HistoryInv(s: System) {
    && s.world >= 1 && SentInv(s.world, s.sent, s.started, s.visited, s.finished)
    && FinishedInv(s.world, s.finished, s.started, s.sent)
  }

  lemma RunHistory(run: seq<System>, actions: seq<Action>, i: nat)
    requires IsRun(run, actions) && i < |run|
    ensures HistoryInv(run[i])
  {
    RunKeepsInv(run, actions, i);
  }

  lemma RunNode(run: seq<System>, actions: seq<Action>, i: nat, r: int)
    requires IsRun(run, actions) && i < |run| && r in run[i].nodes
    ensures run[i].world >= 1 && NodeInv(run[i], r, run[i].nodes[r])
  {
    RunKeepsInv(run, actions, i);
  }

  lemma RunTables(run: seq<System>, actions: seq<Action>, i: nat)
    requires IsRun(run, actions) && i < |run|
    ensures TablesInv(run[i].coordinator, run[i].sent, run[i].finished)
  {
    RunKeepsInv(run, actions, i);
  }

  lemma RunCoordinator(run: seq<System>, actions: seq<Action>, i: nat)
    requires IsRun(run, actions) && i < |run|
    ensures CoordinatorInv(run[i].coordinator, run[i].world)
  {
    RunKeepsInv(run, actions, i);
  }

  lemma RunAnswer(run: seq<System>, actions: seq<Action>, i: nat, a: Answer)
    requires IsRun(run, actions) && i < |run| && a in run[i].answers && a.Averaged?
    ensures run[i].world >= 1 && a.average == Right(a.message.step, run[i].world)
  {
    RunKeepsInv(run, actions, i);
    FinishedRight(run[i], a);
  }

  lemma RunWorld(run: seq<System>, actions: seq<Action>, i: nat)
    requires IsRun(run, actions) && i < |run|
    ensures run[i].world >= 1 && run[i].coordinator.world == run[i].world
  {
    RunKeepsInv(run, actions, i);
  }

  lemma RunCached(run: seq<System>, actions: seq<Action>, i: nat, id: string, step: int)
    requires IsRun(run, actions) && i < |run| && Current(run[i].coordinator.session, id)
    ensures step in run[i].coordinator.completed ==> (id, step) in run[i].finished
  {
    RunTables(run, actions, i);
    assert run[i].coordinator.session.value.id == id;
  }

  lemma RunSent(run: seq<System>, actions: seq<Action>, i: nat, m: ReduceMessage)
    requires IsRun(run, actions) && i < |run| && m in run[i].sent
    ensures m.session != "" && 0 <= m.rank < run[i].coordinator.world && m.session in run[i].started
    ensures m.step >= 1 && m.step > run[i].started[m.session]
    ensures Current(run[i].coordinator.session, m.session) <==> Admits(run[i].coordinator, m.session)
  {
    RunKeepsInv(run, actions, i);
    SentMeetsSession(run[i], m);
  }

  // ---------------------------------------------------------------------------------------------
  // Agreement, no gaps
  // ---------------------------------------------------------------------------------------------

  /** Agreement: in every run, whatever is delayed, duplicated, lost, evicted, restarted or rolled back, every average
      replied for a step is the average of all ranks' gradients for that step, and so is every average accepted. */
  lemma Agreement(run: seq<System>, actions: seq<Action>, i: nat)
    requires IsRun(run, actions) && i < |run|
    ensures run[i].world >= 1
    ensures forall a | a in run[i].answers && a.Averaged? :: a.average == TrueAverage(Gradient, a.message.step, run[i].world)
    ensures forall r, k | r in run[i].nodes && k in run[i].nodes[r].accepted ::
              run[i].nodes[r].accepted[k] == TrueAverage(Gradient, k, run[i].world)
  {
    RunHistory(run, actions, i);
    forall a | a in run[i].answers && a.Averaged?
      ensures a.average == TrueAverage(Gradient, a.message.step, run[i].world)
    {
      RunAnswer(run, actions, i, a);
    }
    forall r, k | r in run[i].nodes && k in run[i].nodes[r].accepted
      ensures run[i].nodes[r].accepted[k] == TrueAverage(Gradient, k, run[i].world)
    {
      RunNode(run, actions, i, r);
      assert run[i].nodes[r].accepted[k] == Right(k, run[i].world);
    }
  }

  /** No gaps: in every run, through crashes, lost disks, rollbacks and coordinator restarts, each rank has accepted,
      at some time, the right average of every step up to the one it is at, and so up to the one on its disk. */
  lemma NoGaps(run: seq<System>, actions: seq<Action>, i: nat, r: int)
    requires IsRun(run, actions) && i < |run| && r in run[i].nodes
    ensures run[i].world >= 1
    ensures var node := run[i].nodes[r];
            && 0 <= node.disk <= node.step
            && forall k | 1 <= k <= node.step ::
                 k in node.accepted && node.accepted[k] == TrueAverage(Gradient, k, run[i].world)
  {
    RunNode(run, actions, i, r);
    var node := run[i].nodes[r];
    forall k | 1 <= k <= node.step
      ensures k in node.accepted && node.accepted[k] == TrueAverage(Gradient, k, run[i].world)
    {
      assert node.accepted[k] == Right(k, run[i].world);
    }
  }

  // ---------------------------------------------------------------------------------------------
  // Lockstep and the cache
  // ---------------------------------------------------------------------------------------------

  /** No step of a session is finished more than one step ahead of any rank training in it. */
  lemma FinishedBound(s: System, session: string, step: int, r: int)
    requires HistoryInv(s) && 0 <= r < s.world && r in s.nodes && s.nodes[r].mode == Training(session)
    requires NodeInv(s, r, s.nodes[r]) && (session, step) in s.finished
    ensures step <= s.nodes[r].step + 1
  {
    assert TrainingInv(s, r, s.nodes[r], session);
    assert ReduceMessage(step, r, session) in s.sent;
  }

  lemma StepsApart(s: System, session: string, a: int, b: int)
    requires HistoryInv(s) && 0 <= b < s.world
    requires a in s.nodes && s.nodes[a].mode == Training(session) && NodeInv(s, a, s.nodes[a])
    requires b in s.nodes && s.nodes[b].mode == Training(session) && NodeInv(s, b, s.nodes[b])
    ensures s.nodes[a].step <= s.nodes[b].step + 1
  {
    assert TrainingInv(s, a, s.nodes[a], session) && TrainingInv(s, b, s.nodes[b], session);
    if s.nodes[a].step > s.started[session] {
      FinishedBound(s, session, s.nodes[a].step, b);
    }
  }

  lemma RunRanks(run: seq<System>, actions: seq<Action>, i: nat)
    requires IsRun(run, actions) && i < |run|
    ensures run[i].nodes.Keys == Below(run[i].world)
  {
    RunKeepsInv(run, actions, i);
  }

  /** Lockstep: two ranks training in the same session are at most one step apart, in every reachable state, and
      no step of that session is finished more than one ahead of either. */
  lemma Lockstep(run: seq<System>, actions: seq<Action>, i: nat, a: int, b: int, session: string)
    requires IsRun(run, actions) && i < |run|
    requires a in run[i].nodes && run[i].nodes[a].mode == Training(session)
    requires b in run[i].nodes && run[i].nodes[b].mode == Training(session)
    ensures -1 <= run[i].nodes[a].step - run[i].nodes[b].step <= 1
    ensures forall step | (session, step) in run[i].finished :: step <= run[i].nodes[a].step + 1
  {
    var s := run[i];
    RunHistory(run, actions, i);
    RunRanks(run, actions, i);
    RunNode(run, actions, i, a);
    RunNode(run, actions, i, b);
    StepsApart(s, session, a, b);
    StepsApart(s, session, b, a);
    forall step | (session, step) in s.finished
      ensures step <= s.nodes[a].step + 1
    {
      FinishedBound(s, session, step, a);
    }
  }

  /** Where a rank stands in a session: at its own step, or at the resume step if it has yet to take it up. */
  ghost function Position(s: System, r: int, session: string): int
    requires r in s.nodes && session in s.started
  {
    if s.nodes[r].mode == Training(session) then s.nodes[r].step else s.started[session]
  }

  /** While a rank has not trained in a session, nothing there is finished. */
  lemma NothingWithout(s: System, session: string, step: int, r: int)
    requires HistoryInv(s) && 0 <= r < s.world
    ensures (session, step) in s.finished ==> (session, r) in s.visited
  {
    if (session, step) in s.finished {
      assert ReduceMessage(step, r, session) in s.sent;
    }
  }

  /** A member under its present incarnation that does not train in the current session has yet to take it up. */
  lemma MemberHasYetToStart(s: System, session: string, r: int)
    requires VisitsInv(s.coordinator.session, s.world, s.visited, s.started, s.incarnations)
    requires Current(s.coordinator.session, session) && session != ""
    requires s.world >= 1 && r in s.nodes && NodeInv(s, r, s.nodes[r]) && s.nodes[r].mode != Training(session)
    requires MemberOf(s.coordinator.session, r) == s.nodes[r].incarnation
    ensures (session, r) !in s.visited
  {
    var other := if s.nodes[r].mode.Training? then s.nodes[r].mode.session else "";
    NotVisitedYet(s, session, r, s.nodes[r].incarnation, other);
  }

  lemma PositionBound(s: System, session: string, step: int, r: int)
    requires HistoryInv(s) && VisitsInv(s.coordinator.session, s.world, s.visited, s.started, s.incarnations)
    requires Current(s.coordinator.session, session) && session != "" && session in s.started
    requires r in s.nodes && 0 <= r < s.world && NodeInv(s, r, s.nodes[r])
    requires MemberOf(s.coordinator.session, r) == s.nodes[r].incarnation
    ensures (session, step) in s.finished ==> step <= Position(s, r, session) + 1
    ensures s.started[session] <= Position(s, r, session)
    ensures Position(s, r, session) > s.started[session] ==> (session, Position(s, r, session)) in s.finished
  {
    if s.nodes[r].mode == Training(session) {
      assert TrainingInv(s, r, s.nodes[r], session);
      if (session, step) in s.finished {
        FinishedBound(s, session, step, r);
      }
    } else {
      MemberHasYetToStart(s, session, r);
      NothingWithout(s, session, step, r);
    }
  }

  lemma RunVisits(run: seq<System>, actions: seq<Action>, i: nat)
    requires IsRun(run, actions) && i < |run|
    ensures VisitsInv(run[i].coordinator.session, run[i].world, run[i].visited, run[i].started, run[i].incarnations)
    ensures "" !in run[i].started
  {
    RunKeepsInv(run, actions, i);
  }

  /** Lockstep of a whole session: while it is current, any two of its members are at most one step apart, counting
      those that have yet to take up their resume step as standing there, and no step is finished more than one ahead of
      any of them. */
  lemma LockstepOfMembers(run: seq<System>, actions: seq<Action>, i: nat, a: int, b: int, session: string)
    requires IsRun(run, actions) && i < |run|
    requires Current(run[i].coordinator.session, session) && session in run[i].started
    requires a in run[i].nodes && MemberOf(run[i].coordinator.session, a) == run[i].nodes[a].incarnation
    requires b in run[i].nodes && MemberOf(run[i].coordinator.session, b) == run[i].nodes[b].incarnation
    ensures -1 <= Position(run[i], a, session) - Position(run[i], b, session) <= 1
    ensures forall step | (session, step) in run[i].finished :: step <= Position(run[i], a, session) + 1
  {
    var s := run[i];
    RunHistory(run, actions, i);
    RunVisits(run, actions, i);
    RunRanks(run, actions, i);
    RunNode(run, actions, i, a);
    RunNode(run, actions, i, b);
    PositionBound(s, session, Position(s, b, session), a);
    PositionBound(s, session, Position(s, a, session), b);
    forall step | (session, step) in s.finished
      ensures step <= Position(s, a, session) + 1
    {
      PositionBound(s, session, step, a);
    }
  }

  lemma EvictedMeansLater(c: State, sent: set<ReduceMessage>, finished: Finished, id: string, step: int)
    requires TablesInv(c, sent, finished) && Current(c.session, id)
    requires (id, step) in finished && step !in c.completed
    ensures (id, step + CACHE_WIDTH) in finished
  {
    assert c.session.value.id == id;
  }

  lemma RunEvicted(run: seq<System>, actions: seq<Action>, i: nat, id: string, step: int)
    requires IsRun(run, actions) && i < |run| && Current(run[i].coordinator.session, id)
    ensures (id, step) in run[i].finished && step !in run[i].coordinator.completed ==>
              (id, step + CACHE_WIDTH) in run[i].finished
  {
    if (id, step) in run[i].finished && step !in run[i].coordinator.completed {
      RunTables(run, actions, i);
      EvictedMeansLater(run[i].coordinator, run[i].sent, run[i].finished, id, step);
    }
  }

  lemma RunBound(run: seq<System>, actions: seq<Action>, i: nat, r: int, step: int)
    requires IsRun(run, actions) && i < |run| && r in run[i].nodes && run[i].nodes[r].mode.Training?
    ensures (run[i].nodes[r].mode.session, step) in run[i].finished ==> step <= run[i].nodes[r].step + 1
  {
    if (run[i].nodes[r].mode.session, step) in run[i].finished {
      RunHistory(run, actions, i);
      RunRanks(run, actions, i);
      RunNode(run, actions, i, r);
      FinishedBound(run[i], run[i].nodes[r].mode.session, step, r);
    }
  }

  /** In every run, while a rank waits for a finished step of the current session, the step is still in the cache:
      evicting it would have taken the rank's own contribution 128 steps later. */
  lemma StillCached(run: seq<System>, actions: seq<Action>, i: nat, r: int)
    requires IsRun(run, actions) && i < |run| && r in run[i].nodes && run[i].nodes[r].mode.Training?
    requires Current(run[i].coordinator.session, run[i].nodes[r].mode.session)
    ensures var node := run[i].nodes[r];
            (node.mode.session, node.step + 1) in run[i].finished ==> node.step + 1 in run[i].coordinator.completed
  {
    var node := run[i].nodes[r];
    RunEvicted(run, actions, i, node.mode.session, node.step + 1);
    RunBound(run, actions, i, r, node.step + 1 + CACHE_WIDTH);
  }

  lemma CachedAnswer(c: State, world: nat, m: ReduceMessage)
    requires CoordinatorInv(c, world) && m.step >= 1 && 0 <= m.rank < world
    requires Admits(c, m.session) && m.step in c.completed
    ensures Handle(c, Request(m)).outcome == Cached(TrueAverage(Gradient, m.step, world))
  {
  }

  lemma RunCachedAnswer(run: seq<System>, actions: seq<Action>, i: nat, m: ReduceMessage)
    requires IsRun(run, actions) && i < |run| && m.step >= 1 && 0 <= m.rank < run[i].coordinator.world
    requires Admits(run[i].coordinator, m.session) && m.step in run[i].coordinator.completed
    ensures run[i].world >= 1
    ensures Handle(run[i].coordinator, Request(m)).outcome == Cached(TrueAverage(Gradient, m.step, run[i].world))
  {
    RunCoordinator(run, actions, i);
    CachedAnswer(run[i].coordinator, run[i].world, m);
  }

  lemma NotAdmitted(c: State, m: ReduceMessage)
    requires m.step >= 1 && 0 <= m.rank < c.world && !Admits(c, m.session)
    ensures Handle(c, Request(m)).outcome == SessionChanged
  {
  }

  lemma RunFinished(run: seq<System>, actions: seq<Action>, i: nat, session: string, step: int, r: int)
    requires IsRun(run, actions) && i < |run| && r in run[i].nodes && (session, step) in run[i].finished
    ensures ReduceMessage(step, r, session) in run[i].sent
  {
    RunHistory(run, actions, i);
    RunRanks(run, actions, i);
  }

  /** The 128-step cache is enough: if the round a rank waits for is finished, then the rank's next retry is
      answered at once, with the right average from the cache or by telling it that its session is over. */
  lemma NeverStranded(run: seq<System>, actions: seq<Action>, i: nat, r: int)
    requires IsRun(run, actions) && i < |run|
    requires r in run[i].nodes && run[i].nodes[r].mode.Training?
    requires (run[i].nodes[r].mode.session, run[i].nodes[r].step + 1) in run[i].finished
    ensures run[i].world >= 1
    ensures var s := run[i];
            var m := CurrentRequest(s, r);
            Handle(s.coordinator, Request(m)).outcome
              == if Current(s.coordinator.session, m.session) then Cached(TrueAverage(Gradient, m.step, s.world))
                 else SessionChanged
  {
    var s := run[i];
    var m := CurrentRequest(s, r);
    RunRanks(run, actions, i);
    RunFinished(run, actions, i, m.session, m.step, r);
    RunSent(run, actions, i, m);
    RunWorld(run, actions, i);
    if Current(s.coordinator.session, m.session) {
      StillCached(run, actions, i, r);
      RunCachedAnswer(run, actions, i, m);
    } else {
      NotAdmitted(s.coordinator, m);
    }
  }

  // ---------------------------------------------------------------------------------------------
  // Isolation and the pending table
  // ---------------------------------------------------------------------------------------------

  /** Isolation: in every run, every contribution the coordinator holds was sent under the session that is current and
      has started, and is the sender's gradient for the step. */
  lemma Isolation(run: seq<System>, actions: seq<Action>, i: nat, step: int, r: int)
    requires IsRun(run, actions) && i < |run|
    requires step in run[i].coordinator.rounds && r in run[i].coordinator.rounds[step]
    ensures var s := run[i];
            && s.coordinator.session.Some? && s.coordinator.session.value.started
            && ReduceMessage(step, r, s.coordinator.session.value.id) in s.sent
            && s.coordinator.rounds[step][r] == Gradient(step, r)
  {
    var s := run[i];
    RunCoordinator(run, actions, i);
    assert RoundFollows(s.coordinator.rounds[step], Gradient, step);
    RunTables(run, actions, i);
    assert RoundSent(s.coordinator.rounds[step], step, s.coordinator.session.value.id, s.sent);
  }

  lemma FinishedFollows(s: System, session: string, step: int)
    requires HistoryInv(s) && (session, step) in s.finished
    ensures session in s.started && step > s.started[session]
    ensures step > s.started[session] + 1 ==> (session, step - 1) in s.finished
  {
    assert ReduceMessage(step, 0, session) in s.sent;
  }

  /** The finished steps of a session have no holes. */
  lemma {:induction false} FinishedDownward(s: System, session: string, step: int, lower: int)
    requires HistoryInv(s) && (session, step) in s.finished && session in s.started
    requires s.started[session] < lower <= step
    ensures (session, lower) in s.finished
    decreases step - lower
  {
    if lower < step {
      FinishedFollows(s, session, step);
      FinishedDownward(s, session, step - 1, lower);
    }
  }

  lemma PendingWasSent(run: seq<System>, actions: seq<Action>, i: nat, step: int) returns (m: ReduceMessage)
    requires IsRun(run, actions) && i < |run| && step in run[i].coordinator.rounds
    ensures run[i].coordinator.session.Some? && m in run[i].sent
    ensures m.step == step && m.session == run[i].coordinator.session.value.id
  {
    var s := run[i];
    RunCoordinator(run, actions, i);
    var values := s.coordinator.rounds[step];
    assert ValidRound(values, s.world) && |values.Keys| > 0;
    RunTables(run, actions, i);
    assert RoundSent(values, step, s.coordinator.session.value.id, s.sent);
    var r := AnyOf(values.Keys);
    m := ReduceMessage(step, r, s.coordinator.session.value.id);
  }

  lemma RunFinishedDown(run: seq<System>, actions: seq<Action>, i: nat, session: string, step: int, lower: int)
    requires IsRun(run, actions) && i < |run| && (session, step) in run[i].finished
    ensures session in run[i].started && run[i].started[session] < step
    ensures run[i].started[session] < lower <= step ==> (session, lower) in run[i].finished
  {
    RunHistory(run, actions, i);
    FinishedFollows(run[i], session, step);
    if run[i].started[session] < lower <= step {
      FinishedDownward(run[i], session, step, lower);
    }
  }

  /** A pending round is live, its step not yet finished, or was re-opened by a late duplicate after its average was
      evicted: its step is finished exactly when the step 128 later is. */
  lemma PendingIsLiveOrReopened(run: seq<System>, actions: seq<Action>, i: nat, step: int)
    requires IsRun(run, actions) && i < |run| && step in run[i].coordinator.rounds
    ensures var s := run[i];
            && s.coordinator.session.Some?
            && var id := s.coordinator.session.value.id;
               (id, step) in s.finished <==> (id, step + CACHE_WIDTH) in s.finished
  {
    var m := PendingWasSent(run, actions, i, step);
    if (m.session, step) in run[i].finished {
      ReopenedMeansLater(run, actions, i, step);
    }
    if (m.session, step + CACHE_WIDTH) in run[i].finished {
      RunSent(run, actions, i, m);
      RunFinishedDown(run, actions, i, m.session, step + CACHE_WIDTH, step);
    }
  }

  lemma ReopenedMeansLater(run: seq<System>, actions: seq<Action>, i: nat, step: int)
    requires IsRun(run, actions) && i < |run| && step in run[i].coordinator.rounds
    ensures var s := run[i];
            && s.coordinator.session.Some?
            && var id := s.coordinator.session.value.id;
               (id, step) in s.finished ==> (id, step + CACHE_WIDTH) in s.finished
  {
    RunCoordinator(run, actions, i);
    assert step !in run[i].coordinator.completed;
    RunTables(run, actions, i);
  }

  /** Nobody waits for a re-opened round: whoever trains in the session is at least 127 steps past it. */
  lemma NobodyWaitsForReopened(run: seq<System>, actions: seq<Action>, i: nat, step: int, r: int)
    requires IsRun(run, actions) && i < |run| && step in run[i].coordinator.rounds && r in run[i].nodes
    requires run[i].coordinator.session.Some?
    requires run[i].nodes[r].mode == Training(run[i].coordinator.session.value.id)
    requires (run[i].coordinator.session.value.id, step) in run[i].finished
    ensures run[i].nodes[r].step >= step + CACHE_WIDTH - 1
  {
    PendingIsLiveOrReopened(run, actions, i, step);
    RunBound(run, actions, i, r, step + CACHE_WIDTH);
  }

  /** Below a contribution that was sent, everything is finished. */
  lemma SentMeansBelowFinished(s: System, m: ReduceMessage, lower: int)
    requires HistoryInv(s) && m in s.sent
    ensures m.session in s.started && s.started[m.session] < m.step
    ensures s.started[m.session] < lower < m.step ==> (m.session, lower) in s.finished
  {
    if s.started[m.session] < lower < m.step {
      FinishedDownward(s, m.session, m.step - 1, lower);
    }
  }

  /** At most one pending round is live, in every run. */
  lemma OneLiveRound(run: seq<System>, actions: seq<Action>, i: nat, a: int, b: int)
    requires IsRun(run, actions) && i < |run|
    requires a in run[i].coordinator.rounds && b in run[i].coordinator.rounds && a < b
    ensures run[i].coordinator.session.Some?
    ensures (run[i].coordinator.session.value.id, a) in run[i].finished
  {
    RunHistory(run, actions, i);
    var sentA := PendingWasSent(run, actions, i, a);
    var sentB := PendingWasSent(run, actions, i, b);
    SentMeansBelowFinished(run[i], sentA, a);
    SentMeansBelowFinished(run[i], sentB, a);
  }

  lemma TooManyMeans(c: State, world: nat, m: ReduceMessage)
    requires CoordinatorInv(c, world) && m.session != ""
    requires Handle(c, Request(m)).outcome == TooManyPending
    ensures |c.rounds| == MAX_PENDING && m.step !in c.rounds && m.step !in c.completed
    ensures Current(c.session, m.session)
  {
  }

  /** While a rank's own step is neither pending nor finished, nothing at or above it is pending. */
  lemma NothingAbove(run: seq<System>, actions: seq<Action>, i: nat, mine: ReduceMessage, pending: ReduceMessage)
    requires IsRun(run, actions) && i < |run|
    requires mine in run[i].sent && pending in run[i].sent && mine.session == pending.session
    requires (mine.session, mine.step) !in run[i].finished && pending.step != mine.step
    ensures (pending.session, pending.step) in run[i].finished
  {
    RunHistory(run, actions, i);
    SentMeansBelowFinished(run[i], pending, mine.step);
    SentMeansBelowFinished(run[i], mine, pending.step);
  }

  lemma FullTableRefuses(c: State, m: ReduceMessage)
    requires m.step >= 1 && 0 <= m.rank < c.world && Admits(c, m.session) && |c.rounds| == MAX_PENDING
    requires m.step !in c.rounds && m.step !in c.completed
    ensures Handle(c, Request(m)).outcome == TooManyPending
  {
  }

  ghost predicate AllReopened(rounds: map<int, Values>, finished: Finished, id: string) {
    forall step | step in rounds :: (id, step) in finished && (id, step + CACHE_WIDTH) in finished
  }

  /** A working rank's request is refused for too many pending rounds exactly when its session is current, its step is
      not finished and the table is full of rounds re-opened by duplicates that arrived after the step 128 later was
      finished. */
  lemma OverflowOnlyByLateDuplicates(run: seq<System>, actions: seq<Action>, i: nat, r: int)
    requires IsRun(run, actions) && i < |run|
    requires r in run[i].nodes && run[i].nodes[r].mode.Training? && CurrentRequest(run[i], r) in run[i].sent
    ensures var s := run[i];
            var m := CurrentRequest(s, r);
            Handle(s.coordinator, Request(m)).outcome == TooManyPending <==>
              && Current(s.coordinator.session, m.session) && |s.coordinator.rounds| == MAX_PENDING
              && (m.session, m.step) !in s.finished
              && AllReopened(s.coordinator.rounds, s.finished, m.session)
  {
    var s := run[i];
    var m := CurrentRequest(s, r);
    RunSent(run, actions, i, m);
    RunCoordinator(run, actions, i);
    if Handle(s.coordinator, Request(m)).outcome == TooManyPending {
      TooManyMeans(s.coordinator, s.world, m);
      StillCached(run, actions, i, r);
      forall step | step in s.coordinator.rounds
        ensures (m.session, step) in s.finished && (m.session, step + CACHE_WIDTH) in s.finished
      {
        var pending := PendingWasSent(run, actions, i, step);
        NothingAbove(run, actions, i, m, pending);
        PendingIsLiveOrReopened(run, actions, i, step);
      }
    } else if Current(s.coordinator.session, m.session) && |s.coordinator.rounds| == MAX_PENDING
              && (m.session, m.step) !in s.finished {
      RunCached(run, actions, i, m.session, m.step);
      if AllReopened(s.coordinator.rounds, s.finished, m.session) {
        FullTableRefuses(s.coordinator, m);
      }
    }
  }

  // ---------------------------------------------------------------------------------------------
  // The size of the cache
  // ---------------------------------------------------------------------------------------------

  ghost predicate IsLast(finished: Finished, id: string, last: int) {
    (id, last) in finished && forall step | (id, step) in finished :: step <= last
  }

  /** No cached step is one that came back after its eviction. */
  ghost predicate NoneCameBack(completed: map<int, real>, finished: Finished, id: string) {
    forall step | step in completed :: (id, step + CACHE_WIDTH) !in finished
  }

  /** The cache always covers the session's last 128 finished steps, and holds nothing later. */
  lemma CacheCovers(run: seq<System>, actions: seq<Action>, i: nat, id: string, last: int)
    requires IsRun(run, actions) && i < |run| && Current(run[i].coordinator.session, id)
    requires IsLast(run[i].finished, id, last)
    ensures id in run[i].started && run[i].started[id] < last
    ensures Window(run[i].started[id], last) <= run[i].coordinator.completed.Keys
    ensures forall step | step in run[i].coordinator.completed :: run[i].started[id] < step <= last
  {
    RunFinishedDown(run, actions, i, id, last, last);
    forall step | step in Window(run[i].started[id], last)
      ensures step in run[i].coordinator.completed
    {
      RunFinishedDown(run, actions, i, id, last, step);
      RunEvicted(run, actions, i, id, step);
    }
    forall step | step in run[i].coordinator.completed
      ensures run[i].started[id] < step <= last
    {
      RunCached(run, actions, i, id, step);
      RunFinishedDown(run, actions, i, id, step, step);
    }
  }

  lemma OneTooMany(completed: map<int, real>, first: int, last: int, step: int)
    requires Window(first, last) <= completed.Keys && step in completed && step !in Window(first, last)
    requires first < step <= last
    ensures |completed| > CACHE_WIDTH
  {
    WindowSlides(first, last);
    SubsetSize(Window(first, last) + {step}, completed.Keys);
    assert |completed| == |completed.Keys|;
  }

  /** A step outside the window that is cached came back, and makes the cache too large. */
  lemma OutsideTheWindow(run: seq<System>, actions: seq<Action>, i: nat, id: string, last: int, step: int)
    requires IsRun(run, actions) && i < |run| && Current(run[i].coordinator.session, id)
    requires IsLast(run[i].finished, id, last) && step in run[i].coordinator.completed
    ensures id in run[i].started
    ensures (id, step + CACHE_WIDTH) in run[i].finished <==> step !in Window(run[i].started[id], last)
    ensures step !in Window(run[i].started[id], last) ==> |run[i].coordinator.completed| > CACHE_WIDTH
  {
    CacheCovers(run, actions, i, id, last);
    if step !in Window(run[i].started[id], last) {
      RunFinishedDown(run, actions, i, id, last, step + CACHE_WIDTH);
      OneTooMany(run[i].coordinator.completed, run[i].started[id], last, step);
    }
  }

  lemma CacheSize(run: seq<System>, actions: seq<Action>, i: nat, id: string, last: int)
    requires IsRun(run, actions) && i < |run| && Current(run[i].coordinator.session, id)
    requires IsLast(run[i].finished, id, last)
    ensures id in run[i].started
    ensures NoneCameBack(run[i].coordinator.completed, run[i].finished, id) <==>
              run[i].coordinator.completed.Keys == Window(run[i].started[id], last)
    ensures NoneCameBack(run[i].coordinator.completed, run[i].finished, id) <==>
              |run[i].coordinator.completed| <= CACHE_WIDTH
  {
    var completed := run[i].coordinator.completed;
    CacheCovers(run, actions, i, id, last);
    forall step | step in completed
      ensures (id, step + CACHE_WIDTH) in run[i].finished <==> step !in Window(run[i].started[id], last)
      ensures step !in Window(run[i].started[id], last) ==> |completed| > CACHE_WIDTH
    {
      OutsideTheWindow(run, actions, i, id, last, step);
    }
    WindowSlides(run[i].started[id], last);
    assert |completed| == |completed.Keys|;
  }

  lemma LastFinished(s: System, id: string, step: int) returns (last: int)
    requires (id, step) in s.finished
    ensures IsLast(s.finished, id, last)
  {
    var steps := set key | key in s.finished && key.0 == id :: key.1;
    assert step in steps;
    last := GreatestOf(steps);
    forall other | (id, other) in s.finished
      ensures other <= last
    {
      assert (id, other).1 in steps;
    }
  }

  /** In every run, the cache of a current session covers its last 128 finished steps; it holds exactly those, and so at
      most 128, if and only if no cached step came back after its eviction. */
  lemma CacheIsTheLast128(run: seq<System>, actions: seq<Action>, i: nat)
    requires IsRun(run, actions) && i < |run| && run[i].coordinator.session.Some?
    ensures var s, id := run[i], run[i].coordinator.session.value.id;
            && (NoneCameBack(s.coordinator.completed, s.finished, id) <==> |s.coordinator.completed| <= CACHE_WIDTH)
            && forall last | IsLast(s.finished, id, last) ::
                 && id in s.started && Window(s.started[id], last) <= s.coordinator.completed.Keys
                 && (NoneCameBack(s.coordinator.completed, s.finished, id) <==>
                       s.coordinator.completed.Keys == Window(s.started[id], last))
  {
    var s, id := run[i], run[i].coordinator.session.value.id;
    forall last | IsLast(s.finished, id, last)
      ensures id in s.started && Window(s.started[id], last) <= s.coordinator.completed.Keys
      ensures NoneCameBack(s.coordinator.completed, s.finished, id) <==>
                s.coordinator.completed.Keys == Window(s.started[id], last)
    {
      CacheCovers(run, actions, i, id, last);
      CacheSize(run, actions, i, id, last);
    }
    if |s.coordinator.completed| > 0 {
      assert |s.coordinator.completed.Keys| == |s.coordinator.completed|;
      var step := AnyOf(s.coordinator.completed.Keys);
      RunCached(run, actions, i, id, step);
      var last := LastFinished(s, id, step);
      CacheSize(run, actions, i, id, last);
    } else {
      assert s.coordinator.completed == map[];
    }
  }

  // ---------------------------------------------------------------------------------------------
  // Runs without late deliveries
  // ---------------------------------------------------------------------------------------------

  /** A contribution is delivered late when the step 128 later is finished already. */
  ghost predicate Late(s: System, a: Action) {
    a.DeliverReduce? && (a.message.session, a.message.step + CACHE_WIDTH) in s.finished
  }

  ghost predicate NeverLate(run: seq<System>, actions: seq<Action>)
    requires |run| == |actions| + 1
  {
    forall i | 0 <= i < |actions| :: !Late(run[i], actions[i])
  }

  /** Nothing pending is finished, and nothing cached came back. */
  ghost predicate Punctual(c: State, finished: Finished) {
    c.session.Some? ==>
      && (forall step | step in c.rounds :: (c.session.value.id, step) !in finished)
      && NoneCameBack(c.completed, finished, c.session.value.id)
  }

  /** The tables' steps after a delivery that is entered: its round is pending, or it is finished. */
  ghost predicate EnteredKeys(c: State, finished: Finished, d: State, after: Finished, m: ReduceMessage) {
    || (&& d.rounds.Keys == c.rounds.Keys + {m.step} && d.completed.Keys == c.completed.Keys
        && after.Keys == finished.Keys)
    || (&& d.rounds.Keys == c.rounds.Keys - {m.step}
        && d.completed.Keys == c.completed.Keys + {m.step} - {m.step - CACHE_WIDTH}
        && after.Keys == finished.Keys + {(m.session, m.step)})
  }

  lemma ClosedDelivery(s: System, m: ReduceMessage, average: real)
    ensures var t := AfterFull(s, m, average);
            && t.coordinator.session == s.coordinator.session
            && EnteredKeys(s.coordinator, s.finished, t.coordinator, t.finished, m)
  {
    ClosedKeys(s.coordinator, m.step, average);
  }

  /** The state after a contribution that leaves its round pending. */
  ghost function AfterPartial(s: System, m: ReduceMessage, values: Values): System {
    s.(coordinator := Opened(s.coordinator, m.step, values), waits := s.waits + {m})
  }

  lemma PartialShape(s: System, m: ReduceMessage)
    requires s.coordinator.world == s.world && |Entered(s.coordinator, m)| != s.world
    requires Handle(s.coordinator, Request(m)).outcome.Waiting?
    ensures ApplyReduce(s, m) == AfterPartial(s, m, Entered(s.coordinator, m))
  {
    HandleAndSession(s.coordinator, Request(m));
  }

  lemma IdleShape(s: System, m: ReduceMessage)
    requires !Handle(s.coordinator, Request(m)).outcome.Waiting?
    ensures ApplyReduce(s, m).coordinator == s.coordinator && ApplyReduce(s, m).finished == s.finished
  {
    HandleAndSession(s.coordinator, Request(m));
  }

  lemma WaitingMeans(c: State, req: ReduceRequest)
    requires Handle(c, req).outcome.Waiting?
    ensures Admits(c, req.session) && req.step !in c.completed
  {
  }

  lemma PartialDelivery(s: System, m: ReduceMessage, values: Values)
    ensures var t := AfterPartial(s, m, values);
            && t.coordinator.session == s.coordinator.session
            && EnteredKeys(s.coordinator, s.finished, t.coordinator, t.finished, m)
  {
  }

  /** A delivery that is entered: admitted, and to a step that was not cached. */
  ghost predicate EnteredDelivery(s: System, m: ReduceMessage, t: System) {
    && Admits(s.coordinator, m.session) && m.step !in s.coordinator.completed
    && t.coordinator.session == s.coordinator.session
    && EnteredKeys(s.coordinator, s.finished, t.coordinator, t.finished, m)
  }

  lemma WaitingIsEntered(s: System, m: ReduceMessage)
    requires s.world >= 1 && s.coordinator.world == s.world && Handle(s.coordinator, Request(m)).outcome.Waiting?
    ensures EnteredDelivery(s, m, ApplyReduce(s, m))
  {
    WaitingMeans(s.coordinator, Request(m));
    if |Entered(s.coordinator, m)| == s.world {
      FullShape(s, m);
      ClosedDelivery(s, m, Average(Entered(s.coordinator, m), s.world));
    } else {
      PartialShape(s, m);
      PartialDelivery(s, m, Entered(s.coordinator, m));
    }
  }

  /** A delivery changes neither tables nor history, or it is entered. */
  lemma DeliveryKeys(s: System, m: ReduceMessage)
    requires s.world >= 1 && s.coordinator.world == s.world
    ensures var t := ApplyReduce(s, m);
            (t.coordinator == s.coordinator && t.finished == s.finished) || EnteredDelivery(s, m, t)
  {
    if Handle(s.coordinator, Request(m)).outcome.Waiting? {
      WaitingIsEntered(s, m);
    } else {
      IdleShape(s, m);
    }
  }

  lemma EnteringKeepsPunctual(c: State, finished: Finished, d: State, after: Finished, m: ReduceMessage)
    requires Punctual(c, finished) && d.session == c.session && Current(c.session, m.session)
    requires EnteredKeys(c, finished, d, after, m)
    requires (m.session, m.step) !in finished && (m.session, m.step + CACHE_WIDTH) !in finished
    ensures Punctual(d, after)
  {
  }

  lemma DeliveryKeepsPunctual(run: seq<System>, actions: seq<Action>, i: nat, m: ReduceMessage, t: System)
    requires IsRun(run, actions) && i < |run| && m in run[i].sent && Punctual(run[i].coordinator, run[i].finished)
    requires (m.session, m.step + CACHE_WIDTH) !in run[i].finished
    requires || (t.coordinator == run[i].coordinator && t.finished == run[i].finished)
             || EnteredDelivery(run[i], m, t)
    ensures Punctual(t.coordinator, t.finished)
  {
    RunSent(run, actions, i, m);
    if EnteredDelivery(run[i], m, t) {
      RunEvicted(run, actions, i, m.session, m.step);
      EnteringKeepsPunctual(run[i].coordinator, run[i].finished, t.coordinator, t.finished, m);
    }
  }

  /** A join leaves the tables alone or clears them for a new session. */
  lemma JoinTables(c: State, req: JoinRequest, freshId: string)
    ensures var t := Join(c, req, freshId).state;
            || t == c
            || (t.rounds == map[] && t.completed == map[])
            || (c.session.Some? && t.session.Some? && t == c.(session := t.session)
                && t.session.value.id == c.session.value.id)
  {
  }

  lemma JoinKeepsPunctual(s: System, j: JoinMessage, freshId: string)
    requires Punctual(s.coordinator, s.finished)
    ensures var t := ApplyJoin(s, j, freshId); Punctual(t.coordinator, t.finished)
  {
    JoinTables(s.coordinator, JoinOf(j), freshId);
    assert ApplyJoin(s, j, freshId).finished == s.finished;
    var c := ApplyJoin(s, j, freshId).coordinator;
    assert c == s.coordinator || c == Join(s.coordinator, JoinOf(j), freshId).state;
  }

  lemma StepKeepsPunctual(run: seq<System>, actions: seq<Action>, i: nat)
    requires IsRun(run, actions) && i < |actions| && !Late(run[i], actions[i])
    requires Punctual(run[i].coordinator, run[i].finished)
    ensures Punctual(run[i + 1].coordinator, run[i + 1].finished)
  {
    match actions[i]
    case DeliverReduce(m) =>
      RunWorld(run, actions, i);
      DeliveryKeys(run[i], m);
      DeliveryKeepsPunctual(run, actions, i, m, ApplyReduce(run[i], m));
    case DeliverJoin(j, freshId) => JoinKeepsPunctual(run[i], j, freshId);
    case _ => OthersKeepPunctual(run[i], actions[i]);
  }

  lemma OthersKeepPunctual(s: System, a: Action)
    requires Enabled(s, a) && !a.DeliverReduce? && !a.DeliverJoin? && Punctual(s.coordinator, s.finished)
    ensures Punctual(Apply(s, a).coordinator, Apply(s, a).finished)
  {
    assert Apply(s, a).finished == s.finished;
    assert Apply(s, a).coordinator == s.coordinator || Apply(s, a).coordinator.session.None?;
  }

  lemma {:induction false} RunIsPunctual(run: seq<System>, actions: seq<Action>, i: nat)
    requires IsRun(run, actions) && NeverLate(run, actions) && i < |run|
    ensures Punctual(run[i].coordinator, run[i].finished)
  {
    if i > 0 {
      RunIsPunctual(run, actions, i - 1);
      StepKeepsPunctual(run, actions, i - 1);
    }
  }

  /** In a run in which no contribution is delivered late, no working rank is ever refused for a full table. */
  lemma NeverRefusedInTime(run: seq<System>, actions: seq<Action>, i: nat, r: int)
    requires IsRun(run, actions) && NeverLate(run, actions) && i < |run|
    requires r in run[i].nodes && run[i].nodes[r].mode.Training? && CurrentRequest(run[i], r) in run[i].sent
    ensures Handle(run[i].coordinator, Request(CurrentRequest(run[i], r))).outcome != TooManyPending
  {
    RunIsPunctual(run, actions, i);
    OverflowOnlyByLateDuplicates(run, actions, i, r);
    if |run[i].coordinator.rounds| == MAX_PENDING {
      assert |run[i].coordinator.rounds.Keys| == |run[i].coordinator.rounds|;
      var step := AnyOf(run[i].coordinator.rounds.Keys);
      RunCoordinator(run, actions, i);
    }
  }

  /** And the cache always holds exactly the last 128 finished steps of the current session. */
  lemma CacheInTime(run: seq<System>, actions: seq<Action>, i: nat)
    requires IsRun(run, actions) && NeverLate(run, actions) && i < |run| && run[i].coordinator.session.Some?
    ensures var s, id := run[i], run[i].coordinator.session.value.id;
            && |s.coordinator.completed| <= CACHE_WIDTH
            && forall last | IsLast(s.finished, id, last) ::
                 id in s.started && s.coordinator.completed.Keys == Window(s.started[id], last)
  {
    RunIsPunctual(run, actions, i);
    CacheIsTheLast128(run, actions, i);
  }

  // ---------------------------------------------------------------------------------------------
  // Refused joins
  // ---------------------------------------------------------------------------------------------

  /** Every seat of the current session was taken by a join call that was sent. */
  ghost predicate Seated(s: System) {
    s.coordinator.session.Some? ==>
      forall r | r in s.coordinator.session.value.members ::
        SeatCalled(s.joins, s.coordinator.session.value.members[r])
  }

  ghost predicate SeatCalled(joins: set<JoinMessage>, seat: JoinRequest) {
    exists j :: j in joins && JoinOf(j) == seat
  }

  lemma SeatsGrow(c: State, req: JoinRequest, freshId: string)
    ensures var t := Join(c, req, freshId).state;
            t.session.Some? ==>
              forall r | r in t.session.value.members ::
                || t.session.value.members[r] == req
                || (c.session.Some? && r in c.session.value.members
                    && t.session.value.members[r] == c.session.value.members[r])
  {
  }

  lemma JoinKeepsSeated(s: System, j: JoinMessage, freshId: string)
    requires Seated(s) && j in s.joins
    ensures Seated(ApplyJoin(s, j, freshId))
  {
    SeatsGrow(s.coordinator, JoinOf(j), freshId);
    var t := ApplyJoin(s, j, freshId);
    assert t.joins == s.joins;
    assert t.coordinator == s.coordinator || t.coordinator == Join(s.coordinator, JoinOf(j), freshId).state;
    assert SeatCalled(s.joins, JoinOf(j));
  }

  lemma OthersKeepSeated(s: System, t: System)
    requires Seated(s) && s.joins <= t.joins
    requires t.coordinator.session.None? || t.coordinator.session == s.coordinator.session
    ensures Seated(t)
  {
    if t.coordinator.session.Some? {
      forall r | r in t.coordinator.session.value.members
        ensures SeatCalled(t.joins, t.coordinator.session.value.members[r])
      {
        assert SeatCalled(s.joins, s.coordinator.session.value.members[r]);
      }
    }
  }

  lemma StepKeepsSeated(s: System, a: Action)
    requires Enabled(s, a) && Seated(s)
    ensures Seated(Apply(s, a))
  {
    match a
    case DeliverJoin(j, freshId) => JoinKeepsSeated(s, j, freshId);
    case DeliverReduce(m) =>
      HandleAndSession(s.coordinator, Request(m));
      OthersKeepSeated(s, Apply(s, a));
    case _ => OthersKeepSeated(s, Apply(s, a));
  }

  lemma {:induction false} RunIsSeated(run: seq<System>, actions: seq<Action>, i: nat)
    requires IsRun(run, actions) && i < |run|
    ensures Seated(run[i])
  {
    if i > 0 {
      RunIsSeated(run, actions, i - 1);
      StepKeepsSeated(run[i - 1], actions[i - 1]);
    }
  }

  /** A worker's call that was put in the current, started session. */
  ghost predicate JoinedNow(s: System, r: int, session: string) {
    && r in s.nodes && s.nodes[r].mode.Joining? && (s.nodes[r].mode.call, session) in s.joinWaits
    && Current(s.coordinator.session, session) && session in s.started
  }

  lemma SeatOfCaller(run: seq<System>, actions: seq<Action>, i: nat, r: int, session: string)
    requires IsRun(run, actions) && i < |run| && JoinedNow(run[i], r, session)
    ensures var members, node := run[i].coordinator.session.value.members, run[i].nodes[r];
            && r in members && members[r].rank == r && members[r].incarnation == node.incarnation
            && node.mode.call.step == node.step && run[i].started[session] <= members[r].step
  {
    RunKeepsInv(run, actions, i);
    assert NodeInv(run[i], r, run[i].nodes[r]);
    var current := run[i].coordinator.session;
    assert MemberOf(current, r) == run[i].nodes[r].incarnation;
    assert ValidSession(current.value, run[i].world);
  }

  /** A worker refuses the answer to its join call, because it names a later step than its own, only if its seat in the
      session was taken by another call of the same process, sent at a later step: a duplicate that arrived late. */
  lemma RefusedOnlyForOwnLateCall(run: seq<System>, actions: seq<Action>, i: nat, r: int, session: string)
    requires IsRun(run, actions) && i < |run| && JoinedNow(run[i], r, session)
    requires !Enabled(run[i], AcceptJoin(r, session))
    ensures exists j :: && j in run[i].joins && j != run[i].nodes[r].mode.call && j.rank == r
                        && j.incarnation == run[i].nodes[r].incarnation && j.step > run[i].nodes[r].step
                        && r in run[i].coordinator.session.value.members
                        && JoinOf(j) == run[i].coordinator.session.value.members[r]
  {
    SeatOfCaller(run, actions, i, r, session);
    RunIsSeated(run, actions, i);
    RunStarted(run, actions, i, session);
    var seat := run[i].coordinator.session.value.members[r];
    assert SeatCalled(run[i].joins, seat);
    var j :| j in run[i].joins && JoinOf(j) == seat;
    assert j.step > run[i].nodes[r].step;
  }

  lemma RunStarted(run: seq<System>, actions: seq<Action>, i: nat, session: string)
    requires IsRun(run, actions) && i < |run| && session in run[i].started
    ensures 0 <= run[i].started[session]
  {
    RunKeepsInv(run, actions, i);
  }
}
