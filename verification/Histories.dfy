/** Whole histories of one coordinator address, for arbitrary clients: any requests in any order,
    with any duplicates, and any number of coordinator restarts. */
module Histories {
  import opened Prelude
  import opened AllReduce

  datatype Event =
    | Reduce(request: ReduceRequest)
    | JoinCall(call: JoinRequest, freshId: string)
    | Restart

  function After(c: State, e: Event): State {
    match e
    case Reduce(request) => Handle(c, request).state
    case JoinCall(call, freshId) => Join(c, call, freshId).state
    case Restart => Fresh(c.world)
  }

  function Run(world: nat, events: seq<Event>): State {
    if events == [] then Fresh(world)
    else After(Run(world, events[..|events| - 1]), events[|events| - 1])
  }

  /** The average that handling an event makes available to the handlers of that step: read from the
      cache, or computed by filling the round. */
  function Published(c: State, e: Event): Option<real> {
    match e
    case Reduce(request) =>
      var h := Handle(c, request);
      if h.outcome.Cached? then Some(h.outcome.average)
      else if h.outcome.Waiting? && request.step in h.state.completed then Some(h.state.completed[request.step])
      else None
    case _ => None
  }

  ghost predicate DrawnIds(events: seq<Event>) {
    forall i | 0 <= i < |events| :: events[i].JoinCall? ==> events[i].freshId != ""
  }

  ghost predicate Follows(events: seq<Event>, g: (int, int) -> real) {
    forall i | 0 <= i < |events| && events[i].Reduce? ::
      events[i].request.gradient == g(events[i].request.step, events[i].request.rank)
  }

  lemma {:induction false} RunIsValid(world: nat, events: seq<Event>)
    requires world >= 1 && DrawnIds(events)
    ensures Valid(Run(world, events)) && Run(world, events).world == world
  {
    if events != [] {
      var before := events[..|events| - 1];
      RunIsValid(world, before);
      var c := Run(world, before);
      match events[|events| - 1]
      case Reduce(request) => HandleKeepsValid(c, request);
      case JoinCall(call, freshId) => JoinKeepsValid(c, call, freshId);
      case Restart =>
    }
  }

  lemma {:induction false} RunIsConsistent(world: nat, events: seq<Event>, g: (int, int) -> real)
    requires world >= 1 && DrawnIds(events) && Follows(events, g)
    ensures Consistent(Run(world, events), g)
  {
    if events != [] {
      var before := events[..|events| - 1];
      RunIsConsistent(world, before, g);
      RunIsValid(world, before);
      var c := Run(world, before);
      match events[|events| - 1]
      case Reduce(request) => HandleKeepsConsistent(c, request, g);
      case JoinCall(call, freshId) => JoinKeepsConsistent(c, call, freshId, g);
      case Restart =>
    }
  }

  /** Agreement: whatever the order, duplication, evictions, session changes and restarts, an average
      published at any point of any history is the average of g over all ranks. */
  lemma Agreement(world: nat, events: seq<Event>, i: nat, g: (int, int) -> real)
    requires world >= 1 && DrawnIds(events) && Follows(events, g)
    requires i < |events|
    ensures var published := Published(Run(world, events[..i]), events[i]);
            published.Some? ==> published.value == TrueAverage(g, events[i].request.step, world)
  {
    var before := events[..i];
    RunIsConsistent(world, before, g);
    RunIsValid(world, before);
    if events[i].Reduce? {
      HandleKeepsConsistent(Run(world, before), events[i].request, g);
    }
  }

  // ---------------------------------------------------------------------------------------------
  // Contributions stand
  // ---------------------------------------------------------------------------------------------

  /** The average of a full round in which a rank contributed `v`. */
  ghost predicate AveragesIn(average: real, world: nat, rank: int, v: real)
    requires world >= 1
  {
    exists values: Values ::
      rank in values && values[rank] == v && |values| == world && average == Average(values, world)
  }

  ghost predicate Holds(c: State, step: int, rank: int, v: real) {
    step in c.rounds && rank in c.rounds[step] && c.rounds[step][rank] == v
  }

  /** The round went with an event: completed with the contribution, or torn down with its session. */
  ghost predicate Resolved(e: Event, after: State, world: nat, step: int, rank: int, v: real)
    requires world >= 1
  {
    if e.Reduce? then
      e.request.step == step && step in after.completed && AveragesIn(after.completed[step], world, rank, v)
    else after.rounds == map[] && after.completed == map[]
  }

  lemma EventKeepsContribution(c: State, e: Event, step: int, rank: int, v: real)
    requires Valid(c) && Holds(c, step, rank, v)
    ensures if step in After(c, e).rounds then Holds(After(c, e), step, rank, v)
            else Resolved(e, After(c, e), c.world, step, rank, v)
  {
    if e.Reduce? {
      ContributionStands(c, e.request, step, rank);
    }
  }

  lemma RunOneMore(world: nat, events: seq<Event>, j: nat)
    requires j < |events|
    ensures Run(world, events[..j + 1]) == After(Run(world, events[..j]), events[j])
  {
    assert events[..j + 1][..j] == events[..j];
  }

  lemma NextKeepsContribution(world: nat, events: seq<Event>, j: nat, step: int, rank: int, v: real)
    requires world >= 1 && DrawnIds(events) && j < |events| && Holds(Run(world, events[..j]), step, rank, v)
    ensures var after := Run(world, events[..j + 1]);
            if step in after.rounds then Holds(after, step, rank, v)
            else Resolved(events[j], after, world, step, rank, v)
  {
    RunIsValid(world, events[..j]);
    RunOneMore(world, events, j);
    EventKeepsContribution(Run(world, events[..j]), events[j], step, rank, v);
  }

  lemma {:induction false} StillHeld(world: nat, events: seq<Event>, i: nat, j: nat, step: int, rank: int, v: real)
    requires world >= 1 && DrawnIds(events) && i <= j <= |events| && Holds(Run(world, events[..i]), step, rank, v)
    requires forall k | i <= k <= j :: step in Run(world, events[..k]).rounds
    ensures Holds(Run(world, events[..j]), step, rank, v)
    decreases j
  {
    if i < j {
      StillHeld(world, events, i, j - 1, step, rank, v);
      NextKeepsContribution(world, events, j - 1, step, rank, v);
      assert step in Run(world, events[..j]).rounds;
    }
  }

  /** For as long as a round is pending, a contribution in it stands, whatever else is requested; and when the round goes,
      it was completed with that contribution in its average, or torn down with its session. */
  lemma ContributionStandsWhilePending(world: nat, events: seq<Event>, i: nat, j: nat, step: int, rank: int, v: real)
    requires world >= 1 && DrawnIds(events) && i <= j < |events| && Holds(Run(world, events[..i]), step, rank, v)
    requires forall k | i <= k <= j :: step in Run(world, events[..k]).rounds
    ensures Holds(Run(world, events[..j]), step, rank, v)
    ensures var after := Run(world, events[..j + 1]);
            if step in after.rounds then Holds(after, step, rank, v)
            else Resolved(events[j], after, world, step, rank, v)
  {
    StillHeld(world, events, i, j, step, rank, v);
    NextKeepsContribution(world, events, j, step, rank, v);
  }

  // ---------------------------------------------------------------------------------------------
  // Session isolation, for arbitrary gradients
  // ---------------------------------------------------------------------------------------------

  function CurrentId(c: State): string {
    if c.session.Some? then c.session.value.id else ""
  }

  ghost predicate Contributed(events: seq<Event>, session: string, step: int, rank: int, v: real) {
    Reduce(ReduceRequest(step, rank, v, session)) in events
  }

  /** Every value was contributed for this step under this session. */
  ghost predicate RoundBacked(events: seq<Event>, session: string, step: int, values: Values) {
    forall r | r in values :: Contributed(events, session, step, r, values[r])
  }

  /** The average is that of one contribution of every rank, each sent for this step under this session. */
  ghost predicate AverageBacked(events: seq<Event>, session: string, step: int, average: real, world: nat)
    requires world >= 1
  {
    exists values: Values ::
      values.Keys == Below(world) && RoundBacked(events, session, step, values) && average == Average(values, world)
  }

  ghost predicate Isolated(c: State, events: seq<Event>) {
    && c.world >= 1
    && (forall s | s in c.rounds :: RoundBacked(events, CurrentId(c), s, c.rounds[s]))
    && (forall s | s in c.completed :: AverageBacked(events, CurrentId(c), s, c.completed[s], c.world))
  }

  lemma IsolatedMonotone(c: State, events: seq<Event>, more: seq<Event>)
    requires Isolated(c, events) && forall e | e in events :: e in more
    ensures Isolated(c, more)
  {
    forall s | s in c.completed
      ensures AverageBacked(more, CurrentId(c), s, c.completed[s], c.world)
    {
      var values: Values :| values.Keys == Below(c.world) && RoundBacked(events, CurrentId(c), s, values)
                            && c.completed[s] == Average(values, c.world);
      assert RoundBacked(more, CurrentId(c), s, values);
    }
  }

  lemma ContributeKeepsIsolated(c: State, step: int, values: Values, events: seq<Event>)
    requires Isolated(c, events)
    requires RoundBacked(events, CurrentId(c), step, values) && values.Keys <= Below(c.world)
    ensures Isolated(Contribute(c, step, values), events)
  {
    if |values| == c.world {
      RanksFull(values.Keys, c.world);
      assert AverageBacked(events, CurrentId(c), step, Average(values, c.world), c.world);
    }
  }

  lemma EnteredIsBacked(c: State, req: ReduceRequest, events: seq<Event>)
    requires Isolated(c, events) && Reduce(req) in events && Admits(c, req.session)
    ensures RoundBacked(events, CurrentId(c), req.step, PendingValues(c, req.step)[req.rank := req.gradient])
  {
    assert RoundBacked(events, CurrentId(c), req.step, PendingValues(c, req.step));
    assert req == ReduceRequest(req.step, req.rank, req.gradient, CurrentId(c));
  }

  lemma HandleKeepsIsolated(c: State, req: ReduceRequest, events: seq<Event>)
    requires Valid(c) && Isolated(c, events) && Reduce(req) in events
    ensures Isolated(Handle(c, req).state, events)
  {
    if Handle(c, req).outcome.Waiting? {
      EnteredIsBacked(c, req, events);
      PendingInRange(c, req.step);
      ContributeKeepsIsolated(c, req.step, PendingValues(c, req.step)[req.rank := req.gradient], events);
    }
  }

  /** Isolation: every pending contribution, and every contribution behind a completed average, was sent
      under the session that is current now (or without one if there is none), whatever clients send. */
  lemma {:induction false} RunIsIsolated(world: nat, events: seq<Event>)
    requires world >= 1 && DrawnIds(events)
    ensures Isolated(Run(world, events), events)
  {
    if events != [] {
      var before := events[..|events| - 1];
      RunIsIsolated(world, before);
      RunIsValid(world, before);
      var c := Run(world, before);
      IsolatedMonotone(c, before, events);
      match events[|events| - 1]
      case Reduce(request) => HandleKeepsIsolated(c, request, events);
      case JoinCall(call, freshId) =>
      case Restart =>
    }
  }
}
