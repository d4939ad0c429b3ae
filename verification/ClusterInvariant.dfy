/** The invariant of the training job and its proof. Each part of the invariant names the parts of the state it
    speaks about, so that an action only has to account for the parts it changes. */
module ClusterInvariant {
  import opened Prelude
  import opened AllReduce
  import opened Cluster

  /** The one right average of a step. */
  ghost function Right(step: int, world: nat): real
    requires world >= 1
  {
    TrueAverage(Gradient, step, world)
  }

  ghost predicate Current(session: Option<Session>, id: string) {
    session.Some? && session.value.id == id
  }

  ghost function MemberOf(session: Option<Session>, rank: int): string {
    if session.Some? then MemberIncarnation(session.value.members, rank) else ""
  }

  ghost predicate CoordinatorInv(c: State, world: nat) {
    && c.world == world && AllReduce.Valid(c) && Consistent(c, Gradient)
    && (c.session.None? ==> c.rounds == map[] && c.completed == map[])
  }

  /** Only drawn ids were started or retired, no retired session is current, and the current session started
      exactly where history says. */
  ghost predicate SessionsInv(current: Option<Session>, ids: set<string>, started: map<string, int>, retired: set<string>) {
    && started.Keys <= ids && retired <= ids && "" !in ids
    && (forall id | id in started :: started[id] >= 0)
    && (forall id | id in retired :: !Current(current, id))
    && (current.Some? ==>
          var session := current.value;
          && session.id in ids
          && (session.started <==> session.id in started)
          && (session.started ==> session.step == started[session.id]))
  }

  /** A contribution was sent by a visitor of its session, and only after the step before it was finished. */
  ghost predicate SentInv(world: nat, sent: set<ReduceMessage>, started: map<string, int>, visited: Visited, finished: Finished) {
    forall m | m in sent ::
      && 0 <= m.rank < world && m.session in started && m.step > started[m.session]
      && (m.session, m.rank) in visited
      && (m.step > started[m.session] + 1 ==> (m.session, m.step - 1) in finished)
  }

  /** A finished step has the right average and a contribution of every rank. */
  ghost predicate FinishedInv(world: nat, finished: Finished, started: map<string, int>, sent: set<ReduceMessage>)
    requires world >= 1
  {
    forall k | k in finished ::
      && k.0 in started && k.1 > started[k.0]
      && (forall average | average in finished[k] :: average == Right(k.1, world))
      && (forall r | 0 <= r < world :: ReduceMessage(k.1, r, k.0) in sent)
  }

  /** The tables of the current session come from contributions sent under it, and a finished step leaves
      the cache only when the step 128 later is finished. */
  ghost predicate TablesInv(c: State, sent: set<ReduceMessage>, finished: Finished) {
    c.session.Some? ==>
      var id := c.session.value.id;
      && (forall step | step in c.rounds :: RoundSent(c.rounds[step], step, id, sent))
      && (forall step | step in c.completed :: (id, step) in finished && c.completed[step] in finished[(id, step)])
      && (forall step {:trigger step in c.completed} | (id, step) in finished ::
            step in c.completed || (id, step + CACHE_WIDTH) in finished)
  }

  ghost predicate RoundSent(values: Values, step: int, id: string, sent: set<ReduceMessage>) {
    forall r | r in values :: ReduceMessage(step, r, id) in sent
  }

  ghost predicate AnswersInv(current: Option<Session>, sent: set<ReduceMessage>, finished: Finished, waits: set<ReduceMessage>, answers: set<Answer>) {
    && (forall m | m in waits :: m in sent)
    && (forall a | a in answers ::
          && a.message in sent
          && (a.Averaged? ==>
                && (a.message.session, a.message.step) in finished
                && a.average in finished[(a.message.session, a.message.step)])
          && (a.Changed? ==> !Current(current, a.message.session)))
  }

  /** A rank that ever trained in the current session is a member under the incarnation it trained with. */
  ghost predicate VisitsInv(current: Option<Session>, world: nat, visited: Visited, started: map<string, int>, incarnations: set<string>) {
    forall k | k in visited ::
      && k.0 in started && 0 <= k.1 < world && visited[k] in incarnations && visited[k] != ""
      && (Current(current, k.0) ==> MemberOf(current, k.1) == visited[k])
  }

  ghost predicate JoinsInv(world: nat, joins: set<JoinMessage>, incarnations: set<string>) {
    forall j | j in joins ::
      0 <= j.rank < world && j.step >= 0 && j.incarnation != "" && j.incarnation in incarnations
  }

  ghost predicate JoinWaitsInv(current: Option<Session>, joins: set<JoinMessage>, joinWaits: set<(JoinMessage, string)>, ids: set<string>) {
    forall w | w in joinWaits ::
      w.0 in joins && w.1 in ids && (Current(current, w.1) ==> MemberOf(current, w.0.rank) == w.0.incarnation)
  }

  ghost predicate GlobalInv(s: System) {
    && s.world >= 1 && s.nodes.Keys == Below(s.world)
    && CoordinatorInv(s.coordinator, s.world)
    && SessionsInv(s.coordinator.session, s.ids, s.started, s.retired)
    && SentInv(s.world, s.sent, s.started, s.visited, s.finished)
    && FinishedInv(s.world, s.finished, s.started, s.sent)
    && TablesInv(s.coordinator, s.sent, s.finished)
    && AnswersInv(s.coordinator.session, s.sent, s.finished, s.waits, s.answers)
    && VisitsInv(s.coordinator.session, s.world, s.visited, s.started, s.incarnations)
    && JoinsInv(s.world, s.joins, s.incarnations)
    && JoinWaitsInv(s.coordinator.session, s.joins, s.joinWaits, s.ids)
  }

  /** No session this incarnation trained in, apart from `except`, is still current. */
  ghost predicate LeftBehind(s: System, rank: int, incarnation: string, except: string) {
    forall k | k in s.visited && k.1 == rank && s.visited[k] == incarnation && k.0 != except ::
      !Current(s.coordinator.session, k.0)
  }

  ghost predicate TrainingInv(s: System, r: int, node: Node, session: string) {
    && session in s.started && s.started[session] <= node.step
    && (node.step > s.started[session] ==> (session, node.step) in s.finished)
    && (session, r) in s.visited && s.visited[(session, r)] == node.incarnation
    && (forall m | m in s.sent && m.rank == r && m.session == session :: m.step <= node.step + 1)
    && LeftBehind(s, r, node.incarnation, session)
  }

  ghost predicate JoiningInv(s: System, r: int, node: Node, call: JoinMessage) {
    && call in s.joins && call.rank == r && call.incarnation == node.incarnation && call.step == node.step
    && LeftBehind(s, r, node.incarnation, "")
    && (forall w | w in s.joinWaits && w.0 == call :: (w.1, r) !in s.visited)
  }

  /** Disk is never ahead of memory, and every step up to the one in memory was accepted, with the right average. */
  ghost predicate ProgressInv(world: nat, node: Node)
    requires world >= 1
  {
    && 0 <= node.disk <= node.step
    && (forall k | 1 <= k <= node.step :: k in node.accepted)
    && (forall k | k in node.accepted :: node.accepted[k] == Right(k, world))
  }

  ghost predicate NodeInv(s: System, r: int, node: Node)
    requires s.world >= 1
  {
    && node.incarnation != "" && node.incarnation in s.incarnations
    && ProgressInv(s.world, node)
    && (match node.mode
        case Training(session) => TrainingInv(s, r, node, session)
        case Joining(call) => JoiningInv(s, r, node, call))
  }

  ghost predicate Inv(s: System) {
    GlobalInv(s) && forall r | r in s.nodes :: NodeInv(s, r, s.nodes[r])
  }

  lemma InitInv(s: System)
    requires Init(s)
    ensures Inv(s)
  {
  }

  // ---------------------------------------------------------------------------------------------
  // What an action leaves alone
  // ---------------------------------------------------------------------------------------------

  /** From s to t history only grew, no session other than a newly drawn one became current, nothing about rank r
      was sent or visited, and its join call, if it waits for one, only got handlers for sessions new to r. */
  ghost predicate Undisturbed(s: System, t: System, r: int, node: Node) {
    && t.world == s.world
    && s.incarnations <= t.incarnations && s.joins <= t.joins
    && (forall id | id in s.started :: id in t.started && t.started[id] == s.started[id])
    && (forall k | k in s.finished :: k in t.finished)
    && (forall id | id in s.ids && Current(t.coordinator.session, id) :: Current(s.coordinator.session, id))
    && (forall m | m in t.sent && m.rank == r :: m in s.sent)
    && (forall k | k in t.visited && k.1 == r :: k in s.visited)
    && (forall k | k in s.visited && k.1 == r :: k in t.visited && t.visited[k] == s.visited[k])
    && (forall w | w in t.joinWaits && node.mode == Joining(w.0) :: w in s.joinWaits || (w.1, r) !in s.visited)
  }

  lemma UndisturbedNode(s: System, t: System, r: int, node: Node)
    requires s.world >= 1 && NodeInv(s, r, node) && Undisturbed(s, t, r, node)
    requires s.started.Keys <= s.ids && forall k | k in s.visited :: k.0 in s.started
    ensures NodeInv(t, r, node)
  {
    match node.mode
    case Training(session) =>
      assert LeftBehind(t, r, node.incarnation, session);
      assert TrainingInv(t, r, node, session);
    case Joining(call) =>
      assert LeftBehind(t, r, node.incarnation, "");
      assert JoiningInv(t, r, node, call);
  }

  /** An action of one rank leaves the others alone; waking a handler leaves every rank alone. */
  lemma LeavesOthers(s: System, a: Action, rank: int)
    requires Enabled(s, a)
    requires match a
             case SendReduce(r) => r == rank
             case AcceptJoin(r, _) => r == rank
             case AcceptAverage(r, _, _) => r == rank
             case AcceptChanged(r, _) => r == rank
             case Crash(r, _, _, _) => r == rank
             case WakeDone(_, _) => rank == -1
             case WakeChanged(_) => rank == -1
             case _ => false
    ensures var t := Apply(s, a);
            t.world == s.world && t.nodes.Keys == s.nodes.Keys
            && forall r | r in s.nodes && r != rank :: t.nodes[r] == s.nodes[r] && Undisturbed(s, t, r, s.nodes[r])
  {
    forall r | r in s.nodes && r != rank
      ensures Apply(s, a).nodes[r] == s.nodes[r] && Undisturbed(s, Apply(s, a), r, s.nodes[r])
    {
      LeavesAnother(s, a, r);
    }
  }

  lemma LeavesAnother(s: System, a: Action, r: int)
    requires Enabled(s, a) && r in s.nodes && !a.DeliverReduce? && !a.DeliverJoin?
    requires a.SendReduce? || a.AcceptJoin? || a.AcceptAverage? || a.AcceptChanged? || a.Crash? ==> a.rank != r
    ensures var t := Apply(s, a);
            r in t.nodes && t.nodes[r] == s.nodes[r] && Undisturbed(s, t, r, s.nodes[r])
  {
  }

  lemma VisitedStarted(s: System)
    requires GlobalInv(s)
    ensures s.started.Keys <= s.ids && forall k | k in s.visited :: k.0 in s.started
  {
  }

  /** It is enough to look at the rank an action is about. */
  lemma OtherNodes(s: System, t: System, rank: int)
    requires Inv(s) && GlobalInv(t) && t.nodes.Keys == s.nodes.Keys && t.world == s.world
    requires rank in t.nodes ==> NodeInv(t, rank, t.nodes[rank])
    requires forall r | r in s.nodes && r != rank :: t.nodes[r] == s.nodes[r] && Undisturbed(s, t, r, s.nodes[r])
    ensures Inv(t)
  {
    VisitedStarted(s);
    forall r | r in t.nodes
      ensures NodeInv(t, r, t.nodes[r])
    {
      if r != rank {
        UndisturbedNode(s, t, r, t.nodes[r]);
      }
    }
  }

  // ---------------------------------------------------------------------------------------------
  // Sending and waking
  // ---------------------------------------------------------------------------------------------

  lemma SentGrows(c: State, world: nat, sent: set<ReduceMessage>, more: set<ReduceMessage>,
                  started: map<string, int>, finished: Finished, waits: set<ReduceMessage>, answers: set<Answer>)
    requires world >= 1 && sent <= more
    requires FinishedInv(world, finished, started, sent) && TablesInv(c, sent, finished)
    requires AnswersInv(c.session, sent, finished, waits, answers)
    ensures FinishedInv(world, finished, started, more) && TablesInv(c, more, finished)
    ensures AnswersInv(c.session, more, finished, waits, answers)
  {
    if c.session.Some? {
      forall step | step in c.rounds
        ensures RoundSent(c.rounds[step], step, c.session.value.id, more)
      {
        assert RoundSent(c.rounds[step], step, c.session.value.id, sent);
      }
    }
  }

  lemma SentAdds(world: nat, sent: set<ReduceMessage>, started: map<string, int>, visited: Visited, finished: Finished,
                 m: ReduceMessage)
    requires SentInv(world, sent, started, visited, finished)
    requires 0 <= m.rank < world && m.session in started && m.step > started[m.session]
    requires (m.session, m.rank) in visited
    requires m.step > started[m.session] + 1 ==> (m.session, m.step - 1) in finished
    ensures SentInv(world, sent + {m}, started, visited, finished)
  {
  }

  lemma SendReduceKeepsNode(s: System, rank: int)
    requires Inv(s) && Enabled(s, SendReduce(rank))
    ensures var t := Apply(s, SendReduce(rank)); NodeInv(t, rank, t.nodes[rank])
  {
    var t := Apply(s, SendReduce(rank));
    var node := s.nodes[rank];
    assert NodeInv(s, rank, node);
    assert LeftBehind(t, rank, node.incarnation, node.mode.session);
    assert TrainingInv(t, rank, node, node.mode.session);
  }

  lemma SendReduceKeeps(s: System, rank: int)
    requires Inv(s) && Enabled(s, SendReduce(rank))
    ensures Inv(Apply(s, SendReduce(rank)))
  {
    var t := Apply(s, SendReduce(rank));
    assert NodeInv(s, rank, s.nodes[rank]);
    SentGrows(s.coordinator, s.world, s.sent, t.sent, s.started, s.finished, s.waits, s.answers);
    SentAdds(s.world, s.sent, s.started, s.visited, s.finished, CurrentRequest(s, rank));
    SendReduceKeepsNode(s, rank);
    LeavesOthers(s, SendReduce(rank), rank);
    OtherNodes(s, t, rank);
  }

  lemma WakeKeeps(s: System, a: Action)
    requires Inv(s) && Enabled(s, a) && (a.WakeDone? || a.WakeChanged?)
    ensures Inv(Apply(s, a))
  {
    var t := Apply(s, a);
    assert AnswersInv(t.coordinator.session, t.sent, t.finished, t.waits, t.answers);
    LeavesOthers(s, a, -1);
    OtherNodes(s, t, -1);
  }

  // ---------------------------------------------------------------------------------------------
  // Accepting replies
  // ---------------------------------------------------------------------------------------------

  lemma AcceptJoinKeepsNode(s: System, rank: int, session: string)
    requires Inv(s) && Enabled(s, AcceptJoin(rank, session))
    ensures var t := Apply(s, AcceptJoin(rank, session)); NodeInv(t, rank, t.nodes[rank])
  {
    var t := Apply(s, AcceptJoin(rank, session));
    var node := s.nodes[rank];
    assert NodeInv(s, rank, node);
    assert (session, rank) !in s.visited;
    assert forall m | m in s.sent :: (m.session, m.rank) in s.visited;
    assert LeftBehind(t, rank, node.incarnation, session);
    assert TrainingInv(t, rank, t.nodes[rank], session);
  }

  lemma VisitAdds(current: Option<Session>, world: nat, visited: Visited, started: map<string, int>,
                  incarnations: set<string>, sent: set<ReduceMessage>, finished: Finished,
                  session: string, rank: int, incarnation: string)
    requires VisitsInv(current, world, visited, started, incarnations)
    requires SentInv(world, sent, started, visited, finished)
    requires session in started && 0 <= rank < world && incarnation in incarnations && incarnation != ""
    requires Current(current, session) ==> MemberOf(current, rank) == incarnation
    ensures VisitsInv(current, world, visited[(session, rank) := incarnation], started, incarnations)
    ensures SentInv(world, sent, started, visited[(session, rank) := incarnation], finished)
  {
  }

  lemma AcceptJoinKeepsGlobal(s: System, rank: int, session: string)
    requires Inv(s) && Enabled(s, AcceptJoin(rank, session))
    ensures GlobalInv(Apply(s, AcceptJoin(rank, session)))
  {
    var t := Apply(s, AcceptJoin(rank, session));
    assert NodeInv(s, rank, s.nodes[rank]);
    assert (s.nodes[rank].mode.call, session) in s.joinWaits;
    VisitAdds(s.coordinator.session, s.world, s.visited, s.started, s.incarnations, s.sent, s.finished,
              session, rank, s.nodes[rank].incarnation);
  }

  lemma AcceptJoinKeeps(s: System, rank: int, session: string)
    requires Inv(s) && Enabled(s, AcceptJoin(rank, session))
    ensures Inv(Apply(s, AcceptJoin(rank, session)))
  {
    var t := Apply(s, AcceptJoin(rank, session));
    AcceptJoinKeepsNode(s, rank, session);
    AcceptJoinKeepsGlobal(s, rank, session);
    LeavesOthers(s, AcceptJoin(rank, session), rank);
    OtherNodes(s, t, rank);
  }

  lemma ProgressAdvances(world: nat, node: Node, average: real, save: bool)
    requires world >= 1 && ProgressInv(world, node) && average == Right(node.step + 1, world)
    ensures ProgressInv(world, Advanced(node, average, save))
  {
    var next := Advanced(node, average, save);
    forall k | k in next.accepted
      ensures next.accepted[k] == Right(k, world)
    {
      if k != node.step + 1 {
        assert k in node.accepted;
      }
    }
  }

  lemma FinishedRight(s: System, a: Answer)
    requires s.world >= 1 && FinishedInv(s.world, s.finished, s.started, s.sent)
    requires AnswersInv(s.coordinator.session, s.sent, s.finished, s.waits, s.answers)
    requires a in s.answers && a.Averaged?
    ensures (a.message.session, a.message.step) in s.finished && a.average == Right(a.message.step, s.world)
  {
  }

  lemma AdvancedNode(s: System, rank: int, node: Node, average: real, save: bool)
    requires s.world >= 1 && NodeInv(s, rank, node) && node.mode.Training?
    requires (node.mode.session, node.step + 1) in s.finished && average == Right(node.step + 1, s.world)
    ensures NodeInv(s, rank, Advanced(node, average, save))
  {
    ProgressAdvances(s.world, node, average, save);
    assert TrainingInv(s, rank, Advanced(node, average, save), node.mode.session);
  }

  lemma AdvanceDisturbsNothing(s: System, rank: int, average: real, save: bool)
    requires Enabled(s, AcceptAverage(rank, average, save))
    ensures var t := Apply(s, AcceptAverage(rank, average, save)); Undisturbed(s, t, rank, t.nodes[rank])
  {
  }

  lemma CurrentAnswer(s: System, rank: int, average: real, save: bool)
    requires Enabled(s, AcceptAverage(rank, average, save))
    requires s.world >= 1 && FinishedInv(s.world, s.finished, s.started, s.sent)
    requires AnswersInv(s.coordinator.session, s.sent, s.finished, s.waits, s.answers)
    ensures var node := s.nodes[rank];
            && (node.mode.session, node.step + 1) in s.finished && average == Right(node.step + 1, s.world)
  {
    FinishedRight(s, Averaged(CurrentRequest(s, rank), average));
  }

  lemma AcceptAverageKeepsNode(s: System, rank: int, average: real, save: bool)
    requires Enabled(s, AcceptAverage(rank, average, save)) && s.world >= 1 && NodeInv(s, rank, s.nodes[rank])
    requires var node := s.nodes[rank];
             (node.mode.session, node.step + 1) in s.finished && average == Right(node.step + 1, s.world)
    requires s.started.Keys <= s.ids && forall k | k in s.visited :: k.0 in s.started
    ensures var t := Apply(s, AcceptAverage(rank, average, save)); NodeInv(t, rank, t.nodes[rank])
  {
    var t := Apply(s, AcceptAverage(rank, average, save));
    AdvancedNode(s, rank, s.nodes[rank], average, save);
    AdvanceDisturbsNothing(s, rank, average, save);
    UndisturbedNode(s, t, rank, t.nodes[rank]);
  }

  lemma AcceptAverageKeeps(s: System, rank: int, average: real, save: bool)
    requires Inv(s) && Enabled(s, AcceptAverage(rank, average, save))
    ensures Inv(Apply(s, AcceptAverage(rank, average, save)))
  {
    var t := Apply(s, AcceptAverage(rank, average, save));
    CurrentAnswer(s, rank, average, save);
    VisitedStarted(s);
    AcceptAverageKeepsNode(s, rank, average, save);
    LeavesOthers(s, AcceptAverage(rank, average, save), rank);
    OtherNodes(s, t, rank);
  }

  lemma JoinsGrow(current: Option<Session>, world: nat, joins: set<JoinMessage>, incarnations: set<string>, call: JoinMessage,
                  joinWaits: set<(JoinMessage, string)>, ids: set<string>)
    requires JoinsInv(world, joins, incarnations) && JoinWaitsInv(current, joins, joinWaits, ids)
    requires 0 <= call.rank < world && call.step >= 0 && call.incarnation != ""
    ensures JoinsInv(world, joins + {call}, incarnations + {call.incarnation})
    ensures JoinWaitsInv(current, joins + {call}, joinWaits, ids)
  {
  }

  /** A call number not used before has no waiting handlers yet. */
  lemma NewCallNode(s: System, r: int, node: Node, call: JoinMessage)
    requires s.world >= 1 && node.incarnation != "" && node.incarnation in s.incarnations && ProgressInv(s.world, node)
    requires call in s.joins && call.rank == r && call.incarnation == node.incarnation && call.step == node.step
    requires LeftBehind(s, r, node.incarnation, "") && forall w | w in s.joinWaits :: w.0 != call
    ensures NodeInv(s, r, node.(mode := Joining(call)))
  {
    assert JoiningInv(s, r, node.(mode := Joining(call)), call);
  }

  lemma ChangedMeansLeftBehind(s: System, rank: int)
    requires Inv(s) && rank in s.nodes && s.nodes[rank].mode.Training?
    requires Changed(CurrentRequest(s, rank)) in s.answers
    ensures LeftBehind(s, rank, s.nodes[rank].incarnation, "")
  {
    var node := s.nodes[rank];
    assert NodeInv(s, rank, node) && LeftBehind(s, rank, node.incarnation, node.mode.session);
    assert !Current(s.coordinator.session, node.mode.session);
  }

  lemma AcceptChangedKeepsNode(s: System, rank: int, number: nat)
    requires Inv(s) && Enabled(s, AcceptChanged(rank, number))
    ensures var t := Apply(s, AcceptChanged(rank, number)); NodeInv(t, rank, t.nodes[rank])
  {
    var t := Apply(s, AcceptChanged(rank, number));
    var node := s.nodes[rank];
    assert NodeInv(s, rank, node);
    ChangedMeansLeftBehind(s, rank);
    assert LeftBehind(t, rank, node.incarnation, "");
    NewCallNode(t, rank, node, t.nodes[rank].mode.call);
  }

  lemma TrainingNode(s: System, rank: int)
    requires Inv(s) && rank in s.nodes
    ensures 0 <= rank < s.world && 0 <= s.nodes[rank].step
    ensures s.nodes[rank].incarnation != "" && s.nodes[rank].incarnation in s.incarnations
  {
    assert NodeInv(s, rank, s.nodes[rank]);
  }

  lemma AcceptChangedKeepsGlobal(s: System, rank: int, number: nat)
    requires GlobalInv(s) && Enabled(s, AcceptChanged(rank, number))
    requires 0 <= rank < s.world && 0 <= s.nodes[rank].step
    requires s.nodes[rank].incarnation != "" && s.nodes[rank].incarnation in s.incarnations
    ensures GlobalInv(Apply(s, AcceptChanged(rank, number)))
  {
    var t := Apply(s, AcceptChanged(rank, number));
    var call := t.nodes[rank].mode.call;
    JoinsGrow(s.coordinator.session, s.world, s.joins, s.incarnations, call, s.joinWaits, s.ids);
    assert s.incarnations + {call.incarnation} == s.incarnations;
    assert t.nodes.Keys == s.nodes.Keys;
  }

  lemma AcceptChangedKeeps(s: System, rank: int, number: nat)
    requires Inv(s) && Enabled(s, AcceptChanged(rank, number))
    ensures Inv(Apply(s, AcceptChanged(rank, number)))
  {
    var t := Apply(s, AcceptChanged(rank, number));
    AcceptChangedKeepsNode(s, rank, number);
    TrainingNode(s, rank);
    AcceptChangedKeepsGlobal(s, rank, number);
    LeavesOthers(s, AcceptChanged(rank, number), rank);
    OtherNodes(s, t, rank);
  }

  // ---------------------------------------------------------------------------------------------
  // Crashes
  // ---------------------------------------------------------------------------------------------

  lemma CrashKeepsNode(s: System, rank: int, incarnation: string, number: nat, keepDisk: bool)
    requires Inv(s) && Enabled(s, Crash(rank, incarnation, number, keepDisk))
    ensures var t := Apply(s, Crash(rank, incarnation, number, keepDisk)); NodeInv(t, rank, t.nodes[rank])
  {
    var t := Apply(s, Crash(rank, incarnation, number, keepDisk));
    assert NodeInv(s, rank, s.nodes[rank]);
    assert LeftBehind(t, rank, incarnation, "");
    assert JoiningInv(t, rank, t.nodes[rank], t.nodes[rank].mode.call);
  }

  /** A coordinator that restarts knows no session, so nothing that mentions the current one binds it. */
  lemma FreshCoordinator(s: System)
    requires GlobalInv(s)
    ensures GlobalInv(s.(coordinator := Fresh(s.world)))
  {
    NothingCurrent(s);
    NothingPending(s);
    OtherCoordinator(s, Fresh(s.world));
  }

  lemma NothingPending(s: System)
    requires s.world >= 1
    ensures CoordinatorInv(Fresh(s.world), s.world) && TablesInv(Fresh(s.world), s.sent, s.finished)
  {
  }

  lemma OtherCoordinator(s: System, c: State)
    requires GlobalInv(s) && CoordinatorInv(c, s.world) && TablesInv(c, s.sent, s.finished)
    requires SessionsInv(c.session, s.ids, s.started, s.retired)
    requires AnswersInv(c.session, s.sent, s.finished, s.waits, s.answers)
    requires VisitsInv(c.session, s.world, s.visited, s.started, s.incarnations)
    requires JoinWaitsInv(c.session, s.joins, s.joinWaits, s.ids)
    ensures GlobalInv(s.(coordinator := c))
  {
  }

  lemma NothingCurrent(s: System)
    requires GlobalInv(s)
    ensures SessionsInv(None, s.ids, s.started, s.retired)
    ensures AnswersInv(None, s.sent, s.finished, s.waits, s.answers)
    ensures VisitsInv(None, s.world, s.visited, s.started, s.incarnations)
    ensures JoinWaitsInv(None, s.joins, s.joinWaits, s.ids)
  {
  }

  lemma CrashKeeps(s: System, rank: int, incarnation: string, number: nat, keepDisk: bool)
    requires Inv(s) && Enabled(s, Crash(rank, incarnation, number, keepDisk))
    ensures Inv(Apply(s, Crash(rank, incarnation, number, keepDisk)))
  {
    var t := Apply(s, Crash(rank, incarnation, number, keepDisk));
    CrashKeepsNode(s, rank, incarnation, number, keepDisk);
    assert NodeInv(s, rank, s.nodes[rank]);
    if rank == 0 {
      FreshCoordinator(s);
    }
    JoinsGrow(t.coordinator.session, s.world, s.joins, s.incarnations, t.nodes[rank].mode.call, s.joinWaits, s.ids);
    assert VisitsInv(t.coordinator.session, t.world, t.visited, t.started, t.incarnations);
    LeavesOthers(s, Crash(rank, incarnation, number, keepDisk), rank);
    OtherNodes(s, t, rank);
  }

  // ---------------------------------------------------------------------------------------------
  // Delivering an allreduce request
  // ---------------------------------------------------------------------------------------------

  lemma FinishedGrows(world: nat, sent: set<ReduceMessage>, started: map<string, int>, visited: Visited,
                      finished: Finished, key: (string, int), average: real,
                      current: Option<Session>, waits: set<ReduceMessage>, answers: set<Answer>)
    requires SentInv(world, sent, started, visited, finished) && AnswersInv(current, sent, finished, waits, answers)
    ensures SentInv(world, sent, started, visited, With(finished, key, average))
    ensures AnswersInv(current, sent, With(finished, key, average), waits, answers)
  {
  }

  lemma FinishedAdds(world: nat, finished: Finished, started: map<string, int>, sent: set<ReduceMessage>,
                     key: (string, int), average: real)
    requires world >= 1 && FinishedInv(world, finished, started, sent)
    requires key.0 in started && key.1 > started[key.0] && average == Right(key.1, world)
    requires forall r | 0 <= r < world :: ReduceMessage(key.1, r, key.0) in sent
    ensures FinishedInv(world, With(finished, key, average), started, sent)
  {
  }

  lemma PartialRoundKeepsTables(c: State, step: int, values: Values, sent: set<ReduceMessage>, finished: Finished)
    requires c.session.Some? && TablesInv(c, sent, finished)
    requires RoundSent(values, step, c.session.value.id, sent)
    ensures TablesInv(c.(rounds := c.rounds[step := values]), sent, finished)
  {
  }

  lemma FullRoundKeepsTables(c: State, step: int, average: real, sent: set<ReduceMessage>, finished: Finished)
    requires c.session.Some? && TablesInv(c, sent, finished)
    ensures TablesInv(Closed(c, step, average), sent, With(finished, (c.session.value.id, step), average))
  {
  }

  /** How a delivered request meets the current session. */
  lemma HandleAndSession(c: State, req: ReduceRequest)
    ensures var h := Handle(c, req);
            && h.state.session == c.session && h.state.world == c.world
            && (!h.outcome.Waiting? ==> h.state == c)
            && (h.outcome.SessionChanged? ==> !Admits(c, req.session))
            && (h.outcome.Cached? ==> Admits(c, req.session) && req.step in c.completed
                                      && h.outcome.average == c.completed[req.step])
            && (h.outcome.Waiting? ==>
                  && Admits(c, req.session) && req.step !in c.completed
                  && h.state == Contribute(c, req.step, PendingValues(c, req.step)[req.rank := req.gradient]))
  {
  }

  lemma DeliverKeepsCoordinator(c: State, world: nat, m: ReduceMessage)
    requires CoordinatorInv(c, world) && m.session != ""
    ensures CoordinatorInv(Handle(c, Request(m)).state, world)
  {
    HandleKeepsValid(c, Request(m));
    HandleKeepsConsistent(c, Request(m), Gradient);
    HandleAndSession(c, Request(m));
  }

  /** The values of the round a delivered request adds to. */
  function Entered(c: State, m: ReduceMessage): Values {
    PendingValues(c, m.step)[m.rank := Gradient(m.step, m.rank)]
  }

  lemma EnteredWereSent(s: System, m: ReduceMessage)
    requires GlobalInv(s) && m in s.sent && Current(s.coordinator.session, m.session)
    ensures RoundSent(Entered(s.coordinator, m), m.step, m.session, s.sent)
    ensures Entered(s.coordinator, m).Keys <= Below(s.world)
  {
    PendingInRange(s.coordinator, m.step);
    if m.step in s.coordinator.rounds {
      assert RoundSent(s.coordinator.rounds[m.step], m.step, m.session, s.sent);
    }
  }

  lemma FullRoundWasSent(values: Values, step: int, id: string, sent: set<ReduceMessage>, world: nat)
    requires RoundSent(values, step, id, sent) && values.Keys <= Below(world) && |values| == world
    ensures forall r | 0 <= r < world :: ReduceMessage(step, r, id) in sent
  {
    RanksFull(values.Keys, world);
  }

  lemma AnswerAdds(current: Option<Session>, sent: set<ReduceMessage>, finished: Finished, waits: set<ReduceMessage>,
                   answers: set<Answer>, m: ReduceMessage, average: real)
    requires AnswersInv(current, sent, finished, waits, answers) && m in sent
    ensures AnswersInv(current, sent, finished, waits + {m}, answers)
    ensures (m.session, m.step) in finished && average in finished[(m.session, m.step)] ==>
              AnswersInv(current, sent, finished, waits, answers + {Averaged(m, average)})
    ensures !Current(current, m.session) ==> AnswersInv(current, sent, finished, waits, answers + {Changed(m)})
  {
  }

  /** A sent request names a session that started; if that session is still current, it is admitted. */
  lemma SentMeetsSession(s: System, m: ReduceMessage)
    requires GlobalInv(s) && m in s.sent
    ensures m.session != "" && 0 <= m.rank < s.world && m.session in s.started && m.step > s.started[m.session]
    ensures Current(s.coordinator.session, m.session) <==> Admits(s.coordinator, m.session)
  {
  }

  lemma DeliverAnswered(s: System, m: ReduceMessage)
    requires GlobalInv(s) && m in s.sent && !Handle(s.coordinator, Request(m)).outcome.Waiting?
    ensures GlobalInv(ApplyReduce(s, m))
  {
    var h := Handle(s.coordinator, Request(m));
    HandleAndSession(s.coordinator, Request(m));
    SentMeetsSession(s, m);
    var average := if h.outcome.Cached? then h.outcome.average else 0.0;
    AnswerAdds(s.coordinator.session, s.sent, s.finished, s.waits, s.answers, m, average);
  }

  lemma DeliverPartial(s: System, m: ReduceMessage)
    requires GlobalInv(s) && m in s.sent && Handle(s.coordinator, Request(m)).outcome.Waiting?
    requires |Entered(s.coordinator, m)| != s.world
    ensures GlobalInv(ApplyReduce(s, m))
  {
    var c := s.coordinator;
    HandleAndSession(c, Request(m));
    SentMeetsSession(s, m);
    DeliverKeepsCoordinator(c, s.world, m);
    EnteredWereSent(s, m);
    PartialRoundKeepsTables(c, m.step, Entered(c, m), s.sent, s.finished);
    AnswerAdds(c.session, s.sent, s.finished, s.waits, s.answers, m, 0.0);
  }

  /** The state after the last contribution of a round. */
  ghost function AfterFull(s: System, m: ReduceMessage, average: real): System {
    s.(coordinator := Closed(s.coordinator, m.step, average), waits := s.waits + {m},
       finished := With(s.finished, (m.session, m.step), average))
  }

  lemma ClosedHolds(c: State, step: int, average: real)
    ensures step in Closed(c, step, average).completed && Closed(c, step, average).completed[step] == average
  {
  }

  lemma FullShape(s: System, m: ReduceMessage)
    requires s.world >= 1 && s.coordinator.world == s.world
    requires Handle(s.coordinator, Request(m)).outcome.Waiting? && |Entered(s.coordinator, m)| == s.world
    ensures ApplyReduce(s, m) == AfterFull(s, m, Average(Entered(s.coordinator, m), s.world))
  {
    var h := Handle(s.coordinator, Request(m));
    HandleAndSession(s.coordinator, Request(m));
    ClosedHolds(s.coordinator, m.step, Average(Entered(s.coordinator, m), s.world));
    assert h == Handled(Closed(s.coordinator, m.step, Average(Entered(s.coordinator, m), s.world)), Waiting);
  }

  lemma AfterFullKeeps(s: System, m: ReduceMessage, average: real)
    requires GlobalInv(s) && m in s.sent && average == Right(m.step, s.world)
    requires Current(s.coordinator.session, m.session)
    requires CoordinatorInv(Closed(s.coordinator, m.step, average), s.world)
    requires forall r | 0 <= r < s.world :: ReduceMessage(m.step, r, m.session) in s.sent
    ensures GlobalInv(AfterFull(s, m, average))
  {
    var c := s.coordinator;
    var key := (m.session, m.step);
    SentMeetsSession(s, m);
    assert key == (c.session.value.id, m.step);
    FullRoundKeepsTables(c, m.step, average, s.sent, s.finished);
    FinishedAdds(s.world, s.finished, s.started, s.sent, key, average);
    FinishedGrows(s.world, s.sent, s.started, s.visited, s.finished, key, average, c.session, s.waits, s.answers);
    AnswerAdds(c.session, s.sent, With(s.finished, key, average), s.waits, s.answers, m, average);
  }

  lemma DeliverFull(s: System, m: ReduceMessage)
    requires GlobalInv(s) && m in s.sent && Handle(s.coordinator, Request(m)).outcome.Waiting?
    requires |Entered(s.coordinator, m)| == s.world
    ensures GlobalInv(ApplyReduce(s, m))
  {
    var c := s.coordinator;
    var average := Average(Entered(c, m), s.world);
    HandleAndSession(c, Request(m));
    FullShape(s, m);
    SentMeetsSession(s, m);
    DeliverKeepsCoordinator(c, s.world, m);
    EnteredWereSent(s, m);
    FullRoundWasSent(Entered(c, m), m.step, m.session, s.sent, s.world);
    EnteredIsRight(c, s.world, m);
    AfterFullKeeps(s, m, average);
  }

  lemma EnteredIsRight(c: State, world: nat, m: ReduceMessage)
    requires CoordinatorInv(c, world) && |Entered(c, m)| == world && 0 <= m.rank < world
    ensures Average(Entered(c, m), world) == Right(m.step, world)
  {
    PendingInRange(c, m.step);
    assert RoundFollows(PendingValues(c, m.step), Gradient, m.step);
    FullRoundAverage(Entered(c, m), Gradient, m.step, world);
  }

  lemma DeliverReduceDisturbsNothing(s: System, m: ReduceMessage, r: int, node: Node)
    requires Enabled(s, DeliverReduce(m))
    ensures Undisturbed(s, ApplyReduce(s, m), r, node) && ApplyReduce(s, m).nodes == s.nodes
  {
    HandleAndSession(s.coordinator, Request(m));
  }

  lemma DeliverReduceKeeps(s: System, m: ReduceMessage)
    requires Inv(s) && Enabled(s, DeliverReduce(m))
    ensures Inv(Apply(s, DeliverReduce(m)))
  {
    var t := ApplyReduce(s, m);
    if !Handle(s.coordinator, Request(m)).outcome.Waiting? {
      DeliverAnswered(s, m);
    } else if |Entered(s.coordinator, m)| != s.world {
      DeliverPartial(s, m);
    } else {
      DeliverFull(s, m);
    }
    forall r | r in s.nodes
      ensures Undisturbed(s, t, r, s.nodes[r])
    {
      DeliverReduceDisturbsNothing(s, m, r, s.nodes[r]);
    }
    OtherNodes(s, t, -1);
  }

  // ---------------------------------------------------------------------------------------------
  // Delivering a join request
  // ---------------------------------------------------------------------------------------------

  lemma StartedGrows(world: nat, sent: set<ReduceMessage>, started: map<string, int>, visited: Visited, finished: Finished,
                     incarnations: set<string>, current: Option<Session>, id: string, step: int)
    requires world >= 1 && id !in started
    requires SentInv(world, sent, started, visited, finished) && FinishedInv(world, finished, started, sent)
    requires VisitsInv(current, world, visited, started, incarnations)
    ensures SentInv(world, sent, started[id := step], visited, finished)
    ensures FinishedInv(world, finished, started[id := step], sent)
    ensures VisitsInv(current, world, visited, started[id := step], incarnations)
  {
  }

  /** The session that the caller of a join ends up in. */
  lemma JoinAndSession(c: State, req: JoinRequest, freshId: string)
    requires AllReduce.Valid(c) && JoinWellFormed(c, req) && freshId != ""
    ensures var joined := Join(c, req, freshId);
            && joined.Rendezvous? && joined.state.session.Some?
            && joined.state.session.value.id == joined.id
            && ValidSession(joined.state.session.value, c.world)
            && MemberOf(joined.state.session, req.rank) == req.incarnation
            && (if TearsDown(c, req)
                then joined.id == freshId && joined.state == State(c.world, map[], map[], joined.state.session)
                else && c.session.Some? && joined.id == c.session.value.id
                     && joined.state == c.(session := joined.state.session)
                     && (c.session.value.started ==>
                           joined.state.session.value.started && joined.state.session.value.step == c.session.value.step)
                     && forall r | r in c.session.value.members :: MemberOf(joined.state.session, r) == MemberOf(c.session, r))
  {
    JoinKeepsValid(c, req, freshId);
  }

  /** A session that starts resumes at some member's checkpoint, which is not negative. */
  lemma StartStep(session: Session, world: nat)
    requires ValidSession(session, world) && session.started
    ensures session.step >= 0
  {
  }

  /** A current session that nobody has visited and under which nothing was finished binds nothing. */
  lemma NewSessionKeeps(s: System, session: Session)
    requires GlobalInv(s) && session.id !in s.ids
    ensures TablesInv(State(s.world, map[], map[], Some(session)), s.sent, s.finished)
    ensures AnswersInv(Some(session), s.sent, s.finished, s.waits, s.answers)
    ensures VisitsInv(Some(session), s.world, s.visited, s.started, s.incarnations)
    ensures JoinWaitsInv(Some(session), s.joins, s.joinWaits, s.ids)
  {
  }

  /** A session that only gained members still knows everyone it knew. */
  ghost predicate Grew(before: Option<Session>, session: Session) {
    && before.Some? && session.id == before.value.id
    && forall r | r in before.value.members :: MemberOf(Some(session), r) == MemberOf(before, r)
  }

  lemma GrownSessionKeepsTables(c: State, session: Session, sent: set<ReduceMessage>, finished: Finished,
                                waits: set<ReduceMessage>, answers: set<Answer>)
    requires Grew(c.session, session)
    requires TablesInv(c, sent, finished) && AnswersInv(c.session, sent, finished, waits, answers)
    ensures TablesInv(c.(session := Some(session)), sent, finished)
    ensures AnswersInv(Some(session), sent, finished, waits, answers)
  {
  }

  lemma GrownSessionKeepsMembers(s: System, before: Option<Session>, session: Session)
    requires Grew(before, session) && VisitsInv(before, s.world, s.visited, s.started, s.incarnations)
    requires JoinsInv(s.world, s.joins, s.incarnations) && JoinWaitsInv(before, s.joins, s.joinWaits, s.ids)
    ensures VisitsInv(Some(session), s.world, s.visited, s.started, s.incarnations)
    ensures JoinWaitsInv(Some(session), s.joins, s.joinWaits, s.ids)
  {
    forall k | k in s.visited && Current(Some(session), k.0)
      ensures MemberOf(Some(session), k.1) == s.visited[k]
    {
      assert MemberOf(before, k.1) != "";
      assert k.1 in before.value.members;
    }
    forall w | w in s.joinWaits && Current(Some(session), w.1)
      ensures MemberOf(Some(session), w.0.rank) == w.0.incarnation
    {
      assert MemberOf(before, w.0.rank) != "";
      assert w.0.rank in before.value.members;
    }
  }

  lemma JoinWaitAdds(current: Option<Session>, joins: set<JoinMessage>, joinWaits: set<(JoinMessage, string)>,
                     ids: set<string>, j: JoinMessage)
    requires JoinWaitsInv(current, joins, joinWaits, ids) && j in joins && current.Some?
    requires MemberOf(current, j.rank) == j.incarnation
    ensures JoinWaitsInv(current, joins, joinWaits + {(j, current.value.id)}, ids + {current.value.id})
  {
  }

  /** Where history says a session started, once a join has been handled. */
  function StartedBy(started: map<string, int>, session: Session): map<string, int> {
    if session.started && session.id !in started then started[session.id := session.step] else started
  }

  lemma JoinKeepsSessions(s: System, session: Session, retired: set<string>)
    requires GlobalInv(s) && ValidSession(session, s.world)
    requires if s.coordinator.session.Some? && s.coordinator.session.value.id == session.id
             then (s.coordinator.session.value.started ==>
                     session.started && session.step == s.coordinator.session.value.step)
             else session.id !in s.ids
    requires s.retired <= retired <= s.ids && session.id !in retired
    ensures SessionsInv(Some(session), s.ids + {session.id}, StartedBy(s.started, session), retired)
  {
    if session.started {
      StartStep(session, s.world);
    }
  }

  lemma JoinKeepsCoordinator(c: State, world: nat, req: JoinRequest, freshId: string)
    requires CoordinatorInv(c, world) && JoinWellFormed(c, req) && freshId != ""
    ensures CoordinatorInv(Join(c, req, freshId).state, world)
  {
    JoinKeepsValid(c, req, freshId);
    JoinKeepsConsistent(c, req, freshId, Gradient);
  }

  lemma DeliverJoinKeepsGlobal(s: System, j: JoinMessage, freshId: string)
    requires GlobalInv(s) && Enabled(s, DeliverJoin(j, freshId))
    ensures GlobalInv(ApplyJoin(s, j, freshId))
  {
    var c := s.coordinator;
    assert JoinWellFormed(c, JoinOf(j));
    JoinAndSession(c, JoinOf(j), freshId);
    JoinKeepsCoordinator(c, s.world, JoinOf(j), freshId);
    var t := ApplyJoin(s, j, freshId);
    var session := t.coordinator.session.value;
    JoinKeepsSessions(s, session, t.retired);
    if TearsDown(c, JoinOf(j)) {
      NewSessionKeeps(s, session);
    } else {
      GrownSessionKeepsTables(c, session, s.sent, s.finished, s.waits, s.answers);
      GrownSessionKeepsMembers(s, c.session, session);
    }
    JoinWaitAdds(t.coordinator.session, s.joins, s.joinWaits, s.ids, j);
    if session.started && session.id !in s.started {
      StartedGrows(s.world, s.sent, s.started, s.visited, s.finished, s.incarnations, t.coordinator.session,
                   session.id, session.step);
    }
  }

  /** A worker's join call can only be put in a session the worker has not trained in: it left those sessions
      because they ended, or under another incarnation, which tears the session down. */
  lemma JoinsNewSession(s: System, j: JoinMessage, freshId: string, r: int)
    requires Inv(s) && Enabled(s, DeliverJoin(j, freshId)) && r in s.nodes && s.nodes[r].mode == Joining(j)
    ensures Join(s.coordinator, JoinOf(j), freshId).Rendezvous? ==>
              (Join(s.coordinator, JoinOf(j), freshId).id, r) !in s.visited
  {
    var node := s.nodes[r];
    assert NodeInv(s, r, node) && JoiningInv(s, r, node, j);
    if !TearsDown(s.coordinator, JoinOf(j)) {
      var id := s.coordinator.session.value.id;
      NotVisitedYet(s, id, r, j.incarnation, "");
    }
  }

  /** A rank that is no member, or a member under an incarnation it never trained with there, never trained there. */
  lemma NotVisitedYet(s: System, id: string, r: int, incarnation: string, except: string)
    requires VisitsInv(s.coordinator.session, s.world, s.visited, s.started, s.incarnations)
    requires Current(s.coordinator.session, id) && id != except && LeftBehind(s, r, incarnation, except)
    requires MemberOf(s.coordinator.session, r) == "" || MemberOf(s.coordinator.session, r) == incarnation
    ensures (id, r) !in s.visited
  {
  }

  /** What delivering a join call leaves alone. */
  lemma DeliverJoinKeepsRest(s: System, j: JoinMessage, freshId: string)
    ensures var t := ApplyJoin(s, j, freshId);
            && t.world == s.world && t.nodes == s.nodes && t.incarnations == s.incarnations && t.joins == s.joins
            && t.finished == s.finished && t.sent == s.sent && t.visited == s.visited
            && forall id | id in s.started :: id in t.started && t.started[id] == s.started[id]
  {
  }

  /** Where it puts its caller. */
  lemma DeliverJoinSeats(s: System, j: JoinMessage, freshId: string)
    requires Enabled(s, DeliverJoin(j, freshId))
    ensures var t, joined := ApplyJoin(s, j, freshId), Join(s.coordinator, JoinOf(j), freshId);
            && (forall id | id in s.ids && Current(t.coordinator.session, id) :: Current(s.coordinator.session, id))
            && t.joinWaits == if joined.Rendezvous? then s.joinWaits + {(j, joined.id)} else s.joinWaits
  {
    var joined := Join(s.coordinator, JoinOf(j), freshId);
    assert joined.Rendezvous? ==> joined.state.session.Some?;
  }

  lemma DeliverJoinDisturbsNothing(s: System, j: JoinMessage, freshId: string, r: int, node: Node)
    requires Enabled(s, DeliverJoin(j, freshId))
    requires node.mode == Joining(j) && Join(s.coordinator, JoinOf(j), freshId).Rendezvous? ==>
               (Join(s.coordinator, JoinOf(j), freshId).id, r) !in s.visited
    ensures Undisturbed(s, ApplyJoin(s, j, freshId), r, node) && ApplyJoin(s, j, freshId).nodes == s.nodes
  {
    DeliverJoinKeepsRest(s, j, freshId);
    DeliverJoinSeats(s, j, freshId);
  }

  lemma DeliverJoinKeeps(s: System, j: JoinMessage, freshId: string)
    requires Inv(s) && Enabled(s, DeliverJoin(j, freshId))
    ensures Inv(Apply(s, DeliverJoin(j, freshId)))
  {
    DeliverJoinKeepsGlobal(s, j, freshId);
    var t := ApplyJoin(s, j, freshId);
    forall r | r in s.nodes
      ensures Undisturbed(s, t, r, s.nodes[r]) && t.nodes == s.nodes
    {
      if s.nodes[r].mode == Joining(j) {
        JoinsNewSession(s, j, freshId, r);
      }
      DeliverJoinDisturbsNothing(s, j, freshId, r, s.nodes[r]);
    }
    assert t.nodes == s.nodes;
    OtherNodes(s, t, -1);
  }

  // ---------------------------------------------------------------------------------------------
  // Every action, every run
  // ---------------------------------------------------------------------------------------------

  lemma StepKeeps(s: System, a: Action)
    requires Inv(s) && Enabled(s, a)
    ensures Inv(Apply(s, a))
  {
    match a
    case SendReduce(rank) => SendReduceKeeps(s, rank);
    case DeliverReduce(m) => DeliverReduceKeeps(s, m);
    case WakeDone(_, _) => WakeKeeps(s, a);
    case WakeChanged(_) => WakeKeeps(s, a);
    case DeliverJoin(j, freshId) => DeliverJoinKeeps(s, j, freshId);
    case AcceptJoin(rank, session) => AcceptJoinKeeps(s, rank, session);
    case AcceptAverage(rank, average, save) => AcceptAverageKeeps(s, rank, average, save);
    case AcceptChanged(rank, number) => AcceptChangedKeeps(s, rank, number);
    case Crash(rank, incarnation, number, keepDisk) => CrashKeeps(s, rank, incarnation, number, keepDisk);
  }

  lemma {:induction false} RunKeepsInv(run: seq<System>, actions: seq<Action>, i: nat)
    requires IsRun(run, actions) && i < |run|
    ensures Inv(run[i])
  {
    if i == 0 {
      InitInv(run[0]);
    } else {
      RunKeepsInv(run, actions, i - 1);
      StepKeeps(run[i - 1], actions[i - 1]);
    }
  }
}
