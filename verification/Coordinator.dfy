/** The coordinator as the object the handlers share: rounds and sessions are heap objects to which
    waiting handlers keep references, and whose channels are closed at most once. */
module Coordinators {
  import opened Prelude
  import opened AllReduce

  /** One round; `done` says whether its channel is closed. Closing a channel twice would panic. */
  class ReduceRound {
    var values: Values
    var average: real
    var done: bool
    ghost const step: int

    constructor (ghost step: int)
      ensures values == map[] && !done && this.step == step
    {
      values := map[];
      average := 0.0;
      done := false;
      this.step := step;
    }

    method CloseDone()
      requires !done
      modifies this`done
      ensures done
    {
      done := true;
    }
  }

  /** One session; `ready` and `changed` say whether the channels of those names are closed. */
  class TrainingSession {
    const id: string
    var members: map<int, JoinRequest>
    var ready: bool
    var changed: bool
    var started: bool
    var step: int

    constructor (freshId: string)
      ensures id == freshId && members == map[] && !ready && !changed && !started && step == 0
    {
      id := freshId;
      members := map[];
      ready := false;
      changed := false;
      started := false;
      step := 0;
    }

    method CloseReady()
      requires !ready
      modifies this`ready
      ensures ready
    {
      ready := true;
    }

    method CloseChanged()
      requires !changed
      modifies this`changed
      ensures changed
    {
      changed := true;
    }
  }

  /** What a handler past its lock section sends when its wait ends. */
  datatype Reply = ReplyAverage(average: real) | ReplySessionChanged | ReplyTimeout

  datatype JoinReply = ReplyJoined(session: string, step: int) | ReplyJoinChanged | ReplyAbandoned

  class Coordinator {
    const world: nat
    var rounds: map<int, ReduceRound>
    var completed: map<int, real>
    var session: TrainingSession?
    ghost var View: State         // what the fields below hold, as one value
    ghost var Repr: set<object>

    /** The view is what the objects hold, pending rounds have open channels and know their step, `ready` is
        closed exactly when the session has started, and the current session's `changed` is open. */
    ghost predicate Linked()
      reads this, Repr
    {
      && this in Repr
      && View.world == world && View.completed == completed && View.rounds.Keys == rounds.Keys
      && (forall s | s in rounds ::
            rounds[s] in Repr && rounds[s].step == s && !rounds[s].done && rounds[s].values == View.rounds[s])
      && (if session == null then View.session == None
          else && session in Repr && session.ready == session.started && !session.changed
               && View.session == Some(Session(session.id, session.members, session.started, session.step)))
    }

    ghost predicate Valid()
      reads this, Repr
    {
      Linked() && AllReduce.Valid(View)
    }

    constructor (world: nat)
      requires world >= 1
      ensures Valid() && fresh(Repr) && View == Fresh(world)
    {
      this.world := world;
      rounds := map[];
      completed := map[];
      session := null;
      View := Fresh(world);
      Repr := {this};
    }

    /** Averages the contributions, adding them up in whatever order the map yields them. */
    method Mean(values: Values) returns (average: real)
      requires world >= 1 && values.Keys <= Below(world)
      ensures average == Average(values, world)
    {
      var sum := 0.0;
      var rest := values.Keys;
      ghost var seen: Values := map[];
      SumBelowNothing(world);
      while rest != {}
        invariant rest <= values.Keys && seen == values - rest
        invariant sum == SumBelow(seen, world)
        decreases rest
      {
        var rank :| rank in rest;
        SumBelowInsert(seen, rank, values[rank], world);
        assert values - (rest - {rank}) == seen[rank := values[rank]];
        seen := seen[rank := values[rank]];
        sum := sum + values[rank];
        rest := rest - {rank};
      }
      assert seen == values;
      average := sum / world as real;
    }

    /** The checks made under the lock before a contribution is entered. */
    method Admit(req: ReduceRequest) returns (outcome: Outcome)
      requires Valid()
      ensures outcome == AllReduce.Handle(View, req).outcome
    {
      if req.step < 1 || req.rank < 0 || req.rank >= world {
        return Invalid;
      }
      if session != null {
        if req.session != session.id || !session.started {
          return SessionChanged;
        }
      } else if req.session != "" {
        return SessionChanged;
      }
      if req.step in completed {
        return Cached(completed[req.step]);
      }
      if req.step !in rounds {
        assert |View.rounds.Keys| == |rounds.Keys|;
        return if |rounds| >= MAX_PENDING then TooManyPending else Waiting;
      }
      var round := rounds[req.step];
      if req.rank in round.values && round.values[req.rank] != req.gradient {
        return ChangedContribution;
      }
      return Waiting;
    }

    /** The lock section of an allreduce request. A waiting handler gets the round it joined, and the session
        whose end it watches for. */
    method Handle(req: ReduceRequest) returns (outcome: Outcome, round: ReduceRound?, waited: TrainingSession?)
      requires Valid()
      modifies this, if req.step in rounds then {rounds[req.step]} else {}
      ensures Valid() && fresh(Repr - old(Repr)) && session == old(session)
      ensures View == AllReduce.Handle(old(View), req).state
      ensures outcome == AllReduce.Handle(old(View), req).outcome
      ensures waited == session
      // rounds keep their identity, so those already waiting wait for the same object
      ensures forall s | s in old(rounds) && s in rounds :: rounds[s] == old(rounds)[s]
      ensures outcome.Waiting? && req.step in old(rounds) ==> round == old(rounds)[req.step]
      ensures outcome.Waiting? ==>
                && round != null && round in Repr
                && (if req.step in rounds then round == rounds[req.step]
                    else req.step in completed && round.done && round.average == completed[req.step])
    {
      round := null;
      waited := session;
      outcome := Admit(req);
      if outcome.Waiting? {
        round := EnterAdmitted(req);
      }
    }

    /** Enters the contribution of a request that passed the checks. */
    method EnterAdmitted(req: ReduceRequest) returns (round: ReduceRound)
      requires Valid() && AllReduce.Handle(View, req).outcome.Waiting?
      modifies this, if req.step in rounds then {rounds[req.step]} else {}
      ensures Valid() && fresh(Repr - old(Repr)) && session == old(session)
      ensures View == AllReduce.Handle(old(View), req).state
      ensures forall s | s in old(rounds) && s in rounds :: rounds[s] == old(rounds)[s]
      ensures req.step in old(rounds) ==> round == old(rounds)[req.step]
      ensures round in Repr
      ensures if req.step in rounds then round == rounds[req.step]
              else req.step in completed && round.done && round.average == completed[req.step]
    {
      AdmittedEnters(View, req);
      round := Enter(req);
    }

    /** Enters an admitted contribution, opening a round first if its step has none. */
    method Enter(req: ReduceRequest) returns (round: ReduceRound)
      requires Linked() && 0 <= req.rank < world
      requires PendingValues(View, req.step).Keys <= Below(world)
      modifies this, if req.step in rounds then {rounds[req.step]} else {}
      ensures Linked() && fresh(Repr - old(Repr)) && session == old(session)
      ensures View == Contribute(old(View), req.step, PendingValues(old(View), req.step)[req.rank := req.gradient])
      ensures forall s | s in old(rounds) && s in rounds :: rounds[s] == old(rounds)[s]
      ensures req.step in old(rounds) ==> round == old(rounds)[req.step]
      ensures round in Repr
      ensures if req.step in rounds then round == rounds[req.step]
              else req.step in completed && round.done && round.average == completed[req.step]
    {
      ghost var values := PendingValues(View, req.step)[req.rank := req.gradient];
      if req.step !in rounds {
        Open(req.step);
      }
      round := rounds[req.step];
      Add(round, req.step, req.rank, req.gradient);
      OpenedContribute(old(View), req.step, values);
    }

    /** Records a contribution and completes the round if that was the last one. */
    method Add(round: ReduceRound, step: int, rank: int, gradient: real)
      requires Linked() && step in rounds && rounds[step] == round
      requires round.values.Keys <= Below(world) && 0 <= rank < world
      modifies this`rounds, this`View, this`completed, round
      ensures Linked() && View == Contribute(old(View), step, old(round.values)[rank := gradient])
      ensures if step in rounds then rounds == old(rounds)
              else rounds == old(rounds) - {step} && step in completed && round.done && round.average == completed[step]
    {
      Record(round, step, rank, gradient);
      StepsOfContribute(old(View), step, round.values);
      if |round.values| == world {
        var average := Mean(round.values);
        Complete(round, step, average);
      }
    }

    /** Starts an empty round for a step. */
    method Open(step: int)
      requires Linked() && step !in rounds
      modifies this
      ensures Linked() && fresh(Repr - old(Repr)) && session == old(session)
      ensures step in rounds && rounds == old(rounds)[step := rounds[step]]
      ensures fresh(rounds[step])
      ensures View == Opened(old(View), step, map[])
    {
      var round := new ReduceRound(step);
      Repr := Repr + {round};
      rounds := rounds[step := round];
      View := Opened(View, step, map[]);
    }

    /** Enters a contribution into a pending round. */
    method Record(round: ReduceRound, step: int, rank: int, gradient: real)
      requires Linked() && step in rounds && rounds[step] == round
      modifies this`View, round`values
      ensures Linked()
      ensures round.values == old(round.values)[rank := gradient]
      ensures View == Opened(old(View), step, round.values)
    {
      round.values := round.values[rank := gradient];
      View := Opened(View, step, round.values);
    }

    /** Caches a round's average in place of the one it evicts and wakes the waiting handlers. */
    method Complete(round: ReduceRound, step: int, average: real)
      requires Linked() && step in rounds && rounds[step] == round
      modifies this`rounds, this`View, this`completed, round`average, round`done
      ensures Linked() && rounds == old(rounds) - {step}
      ensures View == Closed(old(View), step, average)
      ensures step in completed && round.done && round.average == completed[step]
    {
      round.average := average;
      completed := completed[step := average];
      completed := completed - {step - CACHE_WIDTH};
      round.CloseDone();
      rounds := rounds - {step};
      View := Closed(View, step, average);
    }

    /** The wait after the lock section: whichever of the ready cases the runtime picks. It changes nothing,
        so an attempt that times out or is cancelled leaves every contribution in place. */
    method Await(round: ReduceRound, waited: TrainingSession?, expired: bool) returns (reply: Reply)
      requires round.done || (waited != null && waited.changed) || expired
      ensures reply.ReplyAverage? ==> round.done && reply.average == round.average
      ensures reply.ReplySessionChanged? ==> waited != null && waited.changed
      ensures reply.ReplyTimeout? ==> expired
    {
      if
      case round.done => reply := ReplyAverage(round.average);
      case waited != null && waited.changed => reply := ReplySessionChanged;
      case expired => reply := ReplyTimeout;
    }

    /** The lock section of a join request; `freshId` is the random text a new session would be named. */
    method Join(req: JoinRequest, freshId: string) returns (joined: TrainingSession?)
      requires Valid() && freshId != ""
      modifies this, if session == null then {} else {session}
      ensures Valid() && fresh(Repr - old(Repr))
      ensures View == AllReduce.Join(old(View), req, freshId).state
      ensures joined == null <==> AllReduce.Join(old(View), req, freshId).Refused?
      ensures joined != null ==> joined == session && joined.ready == joined.started
      // a session that is torn down is announced to its waiting handlers, and only then
      ensures old(session) != null ==> (old(session).changed <==> session != old(session))
    {
      joined := null;
      if req.rank < 0 || req.rank >= world || req.step < 0 || req.incarnation == "" {
        return;
      }
      JoinKeepsValid(View, req, freshId);
      var known := "";
      if session != null {
        known := MemberIncarnation(session.members, req.rank);
      }
      if session == null || (known != "" && known != req.incarnation) {
        Renew(freshId);
      }
      joined := session;
      TakeSeat(req);
    }

    /** Announces the end of the current session, if any, and begins a new one with empty tables. */
    method Renew(freshId: string)
      requires Linked()
      modifies this, if session == null then {} else {session}
      ensures Linked() && fresh(Repr - old(Repr))
      ensures View == State(world, map[], map[], Some(Session(freshId, map[], false, 0)))
      ensures session != null && fresh(session)
      ensures old(session) != null ==> old(session).changed
    {
      if session != null {
        session.CloseChanged();
      }
      session := new TrainingSession(freshId);
      Repr := Repr + {session};
      rounds := map[];
      completed := map[];
      View := State(world, map[], map[], Some(Session(freshId, map[], false, 0)));
    }

    /** Takes the caller's seat in the current session and starts the session when that was the last one. */
    method TakeSeat(req: JoinRequest)
      requires Linked() && session != null && ValidSession(View.session.value, world)
      requires JoinWellFormed(View, req)
      modifies this`View, session
      ensures Linked()
      ensures View == old(View).(session := Some(Enrol(old(View).session.value, world, req)))
    {
      if req.rank !in session.members {
        session.members := session.members[req.rank := req];
      }
      EnrolKeepsValid(View.session.value, world, req);
      if !session.started && |session.members| == world {
        assert session.members.Keys <= Below(world);
        var least := LeastOf(session.members, req.step);
        session.step := least;
        session.started := true;
        session.CloseReady();
      }
      View := View.(session := Some(Enrol(View.session.value, world, req)));
    }

    /** The scan for the lowest checkpoint, in whatever order the map yields the members. */
    method LeastOf(members: map<int, JoinRequest>, seed: int) returns (least: int)
      requires members.Keys <= Below(world)
      ensures least == LeastStep(members, world, seed)
    {
      least := seed;
      var rest := members.Keys;
      while rest != {}
        invariant rest <= members.Keys && least <= seed
        invariant forall r | r in members && r !in rest :: least <= members[r].step
        invariant least == seed || exists r :: r in members && members[r].step == least
        decreases rest
      {
        var rank :| rank in rest;
        if members[rank].step < least {
          least := members[rank].step;
        }
        rest := rest - {rank};
      }
      LeastStepIsLeast(members, world, seed);
    }

    /** The wait of a join: the reply names the session joined, never a later one. */
    method AwaitJoin(joined: TrainingSession, cancelled: bool) returns (reply: JoinReply)
      requires joined.changed || joined.ready || cancelled
      ensures reply.ReplyJoined? ==> joined.ready && reply.session == joined.id && reply.step == joined.step
      ensures reply.ReplyJoinChanged? ==> joined.changed
      ensures reply.ReplyAbandoned? ==> cancelled
    {
      if
      case joined.changed => reply := ReplyJoinChanged;
      case joined.ready => reply := ReplyJoined(joined.id, joined.step);
      case cancelled => reply := ReplyAbandoned;
    }
  }

  /** A waiting request was entered into its step's contributions. */
  lemma AdmittedEnters(c: State, req: ReduceRequest)
    requires AllReduce.Valid(c) && AllReduce.Handle(c, req).outcome.Waiting?
    ensures 0 <= req.rank < c.world && PendingValues(c, req.step).Keys <= Below(c.world)
    ensures AllReduce.Handle(c, req).state
         == Contribute(c, req.step, PendingValues(c, req.step)[req.rank := req.gradient])
    ensures AllReduce.Valid(AllReduce.Handle(c, req).state)
  {
    HandleKeepsValid(c, req);
    PendingInRange(c, req.step);
  }

  /** A round that was opened empty contributes as one that was absent. */
  lemma OpenedContribute(c: State, step: int, values: Values)
    ensures Contribute(Opened(c, step, map[]), step, values) == Contribute(c, step, values)
  {
    assert c.rounds[step := map[]] - {step} == c.rounds - {step};
    assert c.rounds[step := map[]][step := values] == c.rounds[step := values];
  }

  /** Recording a contribution and closing the round when it is full make up one contribution. */
  lemma StepsOfContribute(c: State, step: int, values: Values)
    requires c.world >= 1
    ensures Contribute(c, step, values)
         == if |values| == c.world then Closed(Opened(c, step, values), step, Average(values, c.world))
            else Opened(c, step, values)
  {
    assert c.rounds[step := values] - {step} == c.rounds - {step};
  }

  lemma {:induction false} SumBelowNothing(n: nat)
    ensures SumBelow(map[], n) == 0.0
  {
    if n > 0 {
      SumBelowNothing(n - 1);
    }
  }
}
