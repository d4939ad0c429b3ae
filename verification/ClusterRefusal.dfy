/** A run in which a worker refuses the answer to its join call, because a late duplicate of an earlier call of its own
    has taken its seat. */
module ClusterRefusal {
  import opened Prelude
  import opened AllReduce
  import opened Cluster
  import opened ClusterRuns
  import opened ClusterExample
  import opened Text
  import ClusterTheorems

  /** Rank 1's call after a crash that left its disk, and rank 0's two later calls. */
  const AGAIN := JoinMessage(1, 1, "third", 0)
  const LATE := JoinMessage(0, 1, "0", 1)
  const LAST := JoinMessage(0, 0, "0", 2)

  // ---------------------------------------------------------------------------------------------
  // Single actions
  // ---------------------------------------------------------------------------------------------

  /** Only the coordinator, the ids, the join handlers, the session history and the answers may differ. */
  ghost predicate SameWorkers(s: System, t: System) {
    && t.world == s.world && t.nodes == s.nodes && t.joins == s.joins && t.incarnations == s.incarnations
    && t.sent == s.sent
  }

  lemma NewSession(c: State, req: JoinRequest, id: string)
    requires c.world == 2 && JoinWellFormed(c, req) && TearsDown(c, req)
    ensures Join(c, req, id) ==
            Rendezvous(State(2, map[], map[], Some(Session(id, map[req.rank := req], false, 0))), id)
  {
    var members: map<int, JoinRequest> := map[];
    assert members[req.rank := req] == map[req.rank := req] && |map[req.rank := req]| == 1;
  }

  /** A call of another incarnation than the member's ends the session. */
  lemma EndsSession(states: States, s: System, j: JoinMessage, id: string) returns (t: System)
    requires Kept(states) && states(s) && j in s.joins && id != "" && id !in s.ids
    requires s.coordinator.world == 2 && s.coordinator.session.Some?
    requires JoinWellFormed(s.coordinator, JoinOf(j)) && TearsDown(s.coordinator, JoinOf(j))
    ensures states(t) && SameWorkers(s, t) && t.ids == s.ids + {id} && t.started == s.started
    ensures t.coordinator == State(2, map[], map[], Some(Session(id, map[j.rank := JoinOf(j)], false, 0)))
  {
    NewSession(s.coordinator, JoinOf(j), id);
    Reaches(states, s, DeliverJoin(j, id));
    t := Apply(s, DeliverJoin(j, id));
  }

  /** Rank 0's call takes the last seat of a session in which rank 1 waits. */
  lemma LastSeat(c: State, id: string, other: JoinRequest, req: JoinRequest, freshId: string)
    requires c == State(2, map[], map[], Some(Session(id, map[1 := other], false, 0)))
    requires JoinWellFormed(c, req) && req.rank == 0
    ensures var session := Session(id, map[1 := other][0 := req], true, Min(req.step, other.step));
            Join(c, req, freshId) == Rendezvous(State(2, map[], map[], Some(session)), id)
  {
    var members := map[1 := other][0 := req];
    assert members.Keys == {0, 1} && |members| == |members.Keys| == 2;
    assert LeastStep(members, 0, req.step) == LeastStep(members, 1, req.step) == req.step;
  }

  lemma FillsSession(states: States, s: System, id: string, other: JoinRequest, j: JoinMessage, freshId: string)
    returns (t: System)
    requires Kept(states) && states(s) && j in s.joins && freshId != "" && freshId !in s.ids
    requires s.coordinator == State(2, map[], map[], Some(Session(id, map[1 := other], false, 0)))
    requires JoinWellFormed(s.coordinator, JoinOf(j)) && j.rank == 0 && id !in s.started && id in s.ids
    ensures states(t) && SameWorkers(s, t) && t.ids == s.ids && (j, id) in t.joinWaits
    ensures t.started == s.started[id := Min(j.step, other.step)]
    ensures t.coordinator == State(2, map[], map[], Some(Session(id, map[1 := other][0 := JoinOf(j)], true,
                                                                 Min(j.step, other.step))))
  {
    LastSeat(s.coordinator, id, other, JoinOf(j), freshId);
    Reaches(states, s, DeliverJoin(j, freshId));
    t := Apply(s, DeliverJoin(j, freshId));
    assert t.ids == s.ids;
  }

  lemma NotItsSession(c: State, m: ReduceMessage)
    requires c.world == 2 && 0 <= m.rank < 2 && m.step >= 1
    requires c.session.Some? && c.session.value.id != m.session
    ensures Handle(c, Request(m)) == Handled(c, SessionChanged)
  {
  }

  lemma HearsChanged(states: States, s: System, id: string) returns (t: System)
    requires Kept(states) && states(s) && 0 in s.nodes && s.nodes[0].mode == Training(id) && s.nodes[0].step >= 0
    requires s.coordinator.world == 2 && s.coordinator.session.Some? && s.coordinator.session.value.id != id
    ensures states(t) && t == s.(sent := t.sent, answers := t.answers) && Changed(CurrentRequest(s, 0)) in t.answers
  {
    Reaches(states, s, SendReduce(0));
    var u := Apply(s, SendReduce(0));
    var m := CurrentRequest(s, 0);
    NotItsSession(u.coordinator, m);
    Reaches(states, u, DeliverReduce(m));
    t := Apply(u, DeliverReduce(m));
  }

  /** Rank 0 finds its session gone and calls again. */
  lemma CallsAgain(states: States, s: System, id: string, number: nat) returns (t: System)
    requires Kept(states) && states(s) && 0 in s.nodes && s.nodes[0].mode == Training(id) && s.nodes[0].step >= 0
    requires s.coordinator.world == 2 && s.coordinator.session.Some? && s.coordinator.session.value.id != id
    requires JoinMessage(0, s.nodes[0].step, s.nodes[0].incarnation, number) !in s.joins
    ensures var call := JoinMessage(0, s.nodes[0].step, s.nodes[0].incarnation, number);
            && states(t) && t.nodes == s.nodes[0 := s.nodes[0].(mode := Joining(call))] && t.joins == s.joins + {call}
    ensures t.world == s.world && t.coordinator == s.coordinator && t.ids == s.ids && t.started == s.started
    ensures t.incarnations == s.incarnations && t.joinWaits == s.joinWaits
  {
    var u := HearsChanged(states, s, id);
    Reaches(states, u, AcceptChanged(0, number));
    t := Apply(u, AcceptChanged(0, number));
  }

  /** Rank 0 takes up the session its call was put in. */
  lemma TakesUp(states: States, s: System, call: JoinMessage, id: string) returns (t: System)
    requires Kept(states) && states(s) && 0 in s.nodes && s.nodes[0].mode == Joining(call) && (call, id) in s.joinWaits
    requires id in s.started && 0 <= s.started[id] <= s.nodes[0].step
    ensures states(t) && t.nodes == s.nodes[0 := Resumed(s.nodes[0], id, s.started[id])]
    ensures t.world == s.world && t.coordinator == s.coordinator && t.ids == s.ids && t.started == s.started
    ensures t.incarnations == s.incarnations && t.joins == s.joins
  {
    Reaches(states, s, AcceptJoin(0, id));
    t := Apply(s, AcceptJoin(0, id));
  }

  // ---------------------------------------------------------------------------------------------
  // The run
  // ---------------------------------------------------------------------------------------------

  /** The coordinator waits in session `id` for rank 0, next to this seat of rank 1. */
  ghost predicate Waits(s: System, id: string, seat: JoinRequest) {
    s.coordinator == State(2, map[], map[], Some(Session(id, map[1 := seat], false, 0)))
  }

  /** Rank 0 at a step in a session. */
  ghost predicate At(s: System, id: string, step: int) {
    && 0 in s.nodes && s.nodes[0].mode == Training(id) && s.nodes[0].step == step
    && s.nodes[0].incarnation == "0"
  }

  lemma Letters()
    ensures forall a, b | a in "abcdef" && b in "abcdef" && a != b :: [a] != [b]
    ensures forall a | a in "abcdef" :: [a] != "session" && [a] != ""
    ensures IntText(0) == "0" && IntText(1) == "1"
    ensures CallSet(2) == {Call(0), Call(1)} && Names(2) == {"0", "1"}
    ensures Seats(FirstCalls(2), 2) == map[0 := JoinOf(Call(0)), 1 := JoinOf(Call(1))]
  {
    assert forall a, b | a in "abcdef" && b in "abcdef" && a != b :: [a][0] != [b][0];
    assert |"session"| == 7 && |"third"| == 5 && |"0"| == |"1"| == 1;
    FirstNames();
  }

  lemma FirstNames()
    ensures IntText(0) == "0" && IntText(1) == "1"
    ensures CallSet(2) == {Call(0), Call(1)} && Names(2) == {"0", "1"}
    ensures Seats(FirstCalls(2), 2) == map[0 := JoinOf(Call(0)), 1 := JoinOf(Call(1))]
  {
    assert Below(0) == {} && Below(1) == {0} && Below(2) == {0, 1};
    assert NatText(0) == [Digit(0)] && NatText(1) == [Digit(1)];
    assert CallSet(2) == {Call(0), Call(1)} by {
      assert forall j | j in CallSet(2) :: j == Call(0) || j == Call(1);
      assert Call(0) in CallSet(2) && Call(1) in CallSet(2);
    }
    assert Names(2) == {"0", "1"} by {
      assert IntText(0) in Names(2) && IntText(1) in Names(2);
    }
  }

  /** Rank 1 crashes after a step and keeps its disk. */
  lemma Crashes(states: States) returns (t: System)
    requires Kept(states) && states(Beginning(2))
    ensures states(t) && t.world == 2 && At(t, "session", 1) && t.joins == {Call(0), Call(1), AGAIN}
    ensures t.ids == {"session"} && t.started == map["session" := 0]
    ensures t.coordinator.world == 2 && t.coordinator.session == Some(Session("session", Seats(FirstCalls(2), 2), true, 0))
  {
    Letters();
    var s := SomeRun(states, 2, 1);
    Reaches(states, s, Crash(1, "third", 0, true));
    t := Apply(s, Crash(1, "third", 0, true));
    assert Restarted(s.nodes[1], 1, "third", 0, true).mode.call == AGAIN;
  }

  /** Its new call ends the session, and a late duplicate of its first call ends the next one. */
  lemma EndsTwice(states: States) returns (t: System)
    requires Kept(states) && states(Beginning(2))
    ensures states(t) && t.world == 2 && At(t, "session", 1) && t.joins == {Call(0), Call(1), AGAIN}
    ensures t.ids == {"session", "a", "b"} && t.started == map["session" := 0] && Waits(t, "b", JoinOf(Call(1)))
  {
    Letters();
    var s := Crashes(states);
    t := EndsSession(states, s, AGAIN, "a");
    t := EndsSession(states, t, Call(1), "b");
  }

  /** Rank 0 joins it at its step 1 and falls back to step 0. */
  lemma FallsBack(states: States) returns (t: System)
    requires Kept(states) && states(Beginning(2))
    ensures states(t) && t.world == 2 && At(t, "b", 0) && t.joins == {Call(0), Call(1), AGAIN, LATE}
    ensures t.ids == {"session", "a", "b"} && t.started == map["session" := 0, "b" := 0]
    ensures t.coordinator == State(2, map[], map[], Some(Session("b", map[1 := JoinOf(Call(1))][0 := JoinOf(LATE)],
                                                                 true, 0)))
  {
    Letters();
    t := EndsTwice(states);
    t := CallsAgain(states, t, "session", 1);
    t := FillsSession(states, t, "b", JoinOf(Call(1)), LATE, "d");
    t := TakesUp(states, t, LATE, "b");
    assert t.started == map["session" := 0, "b" := 0];
  }

  /** Rank 1's new call, retried, ends that session too, and a late duplicate of rank 0's call takes its seat in the
      next one, which starts at step 1. */
  lemma SeatIsTaken(states: States) returns (t: System)
    requires Kept(states) && states(Beginning(2))
    ensures states(t) && t.world == 2 && At(t, "b", 0) && t.joins == {Call(0), Call(1), AGAIN, LATE}
    ensures t.ids == {"session", "a", "b", "c"} && "c" in t.started && t.started["c"] == 1
    ensures t.coordinator == State(2, map[], map[], Some(Session("c", map[1 := JoinOf(AGAIN)][0 := JoinOf(LATE)],
                                                                 true, 1)))
  {
    Letters();
    t := FallsBack(states);
    t := EndsSession(states, t, AGAIN, "c");
    t := FillsSession(states, t, "c", JoinOf(AGAIN), LATE, "e");
  }

  lemma SeatStays(c: State, freshId: string)
    requires c == State(2, map[], map[], Some(Session("c", map[1 := JoinOf(AGAIN)][0 := JoinOf(LATE)], true, 1)))
    ensures Join(c, JoinOf(LAST), freshId) == Rendezvous(c, "c")
  {
  }

  ghost predicate RefusesItsAnswer(s: System) {
    s.world == 2 && ClusterTheorems.JoinedNow(s, 0, "c") && !Enabled(s, AcceptJoin(0, "c"))
  }

  /** Rank 0 calls from its step 0 and is answered step 1. */
  lemma AnsweredLater(states: States) returns (t: System)
    requires Kept(states) && states(Beginning(2))
    ensures states(t) && RefusesItsAnswer(t)
  {
    Letters();
    var s := SeatIsTaken(states);
    s := CallsAgain(states, s, "b", 2);
    t := LastAnswer(states, s);
  }

  lemma LastAnswer(states: States, s: System) returns (t: System)
    requires Kept(states) && states(s) && s.world == 2 && LAST in s.joins && "f" !in s.ids
    requires 0 in s.nodes && s.nodes[0].mode == Joining(LAST) && s.nodes[0].step == 0
    requires s.coordinator == State(2, map[], map[], Some(Session("c", map[1 := JoinOf(AGAIN)][0 := JoinOf(LATE)],
                                                                  true, 1)))
    requires "c" in s.started && s.started["c"] == 1
    ensures states(t) && RefusesItsAnswer(t)
  {
    SeatStays(s.coordinator, "f");
    Reaches(states, s, DeliverJoin(LAST, "f"));
    t := Apply(s, DeliverJoin(LAST, "f"));
  }

  /** It does happen that a worker refuses the answer to its join call and ends: a run of two ranks in which one process
      crashes, keeping its disk, and join calls are duplicated and arrive late. */
  lemma JoinIsRefused() returns (run: seq<System>, actions: seq<Action>)
    ensures IsRun(run, actions)
    ensures var s := run[|actions|];
            s.world == 2 && ClusterTheorems.JoinedNow(s, 0, "c") && !Enabled(s, AcceptJoin(0, "c"))
  {
    run, actions := Starts(2);
    var s := AnsweredLater(state => Follows(run, actions, state));
    run, actions := RunTo(run, actions, s);
  }
}
