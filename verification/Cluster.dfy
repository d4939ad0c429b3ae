/** The whole training job as a transition system: one coordinator, `world` workers with a checkpoint each,
    and a network that may delay, duplicate or lose any message. Sets of messages only grow, so delivering a
    member of a set late or twice is delay and duplication, and never delivering it is loss. */
module Cluster {
  import opened Prelude
  import opened AllReduce

  /** What a rank contributes to a step. */
  function Gradient(step: int, rank: int): real {
    ((step * 31 + rank * 17) % 1000) as real / 1000.0
  }

  /** An allreduce request as a worker sends it; the gradient is determined by step and rank. */
  datatype ReduceMessage = ReduceMessage(step: int, rank: int, session: string)

  /** A join request. `call` tells the worker's join calls apart: a reply only reaches the call that asked. */
  datatype JoinMessage = JoinMessage(rank: int, step: int, incarnation: string, call: nat)

  /** An HTTP reply to an allreduce request that the worker acts on. */
  datatype Answer = Averaged(message: ReduceMessage, average: real) | Changed(message: ReduceMessage)

  datatype Mode = Joining(call: JoinMessage) | Training(session: string)

  /** A worker: its process incarnation, the step in memory and on disk, and, as history over all its
      incarnations, the average it last accepted for each step. */
  datatype Node = Node(incarnation: string, mode: Mode, step: int, disk: int, accepted: map<int, real>)

  /** The incarnation with which a rank entered a session. */
  type Visited = map<(string, int), string>

  datatype System = System(
    world: nat,
    coordinator: State,
    nodes: map<int, Node>,
    // names drawn so far
    ids: set<string>,
    incarnations: set<string>,
    // requests sent, and handlers past their lock section
    joins: set<JoinMessage>,
    sent: set<ReduceMessage>,
    joinWaits: set<(JoinMessage, string)>,
    waits: set<ReduceMessage>,
    answers: set<Answer>,
    // history of the session and round objects: where a session started, which sessions were announced as
    // ended, which averages rounds closed with, and the incarnation with which a rank entered a session
    started: map<string, int>,
    retired: set<string>,
    finished: Finished,
    visited: Visited)

  datatype Action =
    | SendReduce(rank: int)
    | DeliverReduce(message: ReduceMessage)
    | WakeDone(message: ReduceMessage, average: real)
    | WakeChanged(message: ReduceMessage)
    | DeliverJoin(call: JoinMessage, freshId: string)
    | AcceptJoin(rank: int, session: string)
    | AcceptAverage(rank: int, average: real, save: bool)
    | AcceptChanged(rank: int, number: nat)
    | Crash(rank: int, incarnation: string, number: nat, keepDisk: bool)

  function Request(m: ReduceMessage): ReduceRequest {
    ReduceRequest(m.step, m.rank, Gradient(m.step, m.rank), m.session)
  }

  function JoinOf(j: JoinMessage): JoinRequest {
    JoinRequest(j.rank, j.step, j.incarnation)
  }

  /** The request a training worker is currently working on. */
  function CurrentRequest(s: System, rank: int): ReduceMessage
    requires rank in s.nodes && s.nodes[rank].mode.Training?
  {
    ReduceMessage(s.nodes[rank].step + 1, rank, s.nodes[rank].mode.session)
  }

  /** The averages that rounds closed with, by session and step. */
  type Finished = map<(string, int), set<real>>

  function With(finished: Finished, key: (string, int), average: real): Finished {
    finished[key := (if key in finished then finished[key] else {}) + {average}]
  }

  predicate Enabled(s: System, a: Action) {
    match a
    case SendReduce(rank) => rank in s.nodes && s.nodes[rank].mode.Training?
    case DeliverReduce(m) => m in s.sent
    case WakeDone(m, average) =>
      m in s.waits && (m.session, m.step) in s.finished && average in s.finished[(m.session, m.step)]
    case WakeChanged(m) => m in s.waits && m.session in s.retired
    case DeliverJoin(j, freshId) => j in s.joins && freshId != "" && freshId !in s.ids
    case AcceptJoin(rank, session) =>
      // a reply with a later step than the worker's own checkpoint is refused and ends the process
      && rank in s.nodes && s.nodes[rank].mode.Joining?
      && (s.nodes[rank].mode.call, session) in s.joinWaits
      && session in s.started && 0 <= s.started[session] <= s.nodes[rank].step
    case AcceptAverage(rank, average, _) =>
      && rank in s.nodes && s.nodes[rank].mode.Training?
      && Averaged(CurrentRequest(s, rank), average) in s.answers
    case AcceptChanged(rank, number) =>
      && rank in s.nodes && s.nodes[rank].mode.Training?
      && Changed(CurrentRequest(s, rank)) in s.answers
      && JoinMessage(rank, s.nodes[rank].step, s.nodes[rank].incarnation, number) !in s.joins
    case Crash(rank, incarnation, _, _) =>
      rank in s.nodes && incarnation != "" && incarnation !in s.incarnations
  }

  /** A worker that enters a session at its resume step, saving it at once. */
  function Resumed(node: Node, session: string, step: int): Node {
    node.(mode := Training(session), step := step, disk := step)
  }

  /** A worker that finished the step after its current one, and saved it if a checkpoint was due. */
  function Advanced(node: Node, average: real, save: bool): Node {
    node.(step := node.step + 1, disk := if save then node.step + 1 else node.disk,
          accepted := node.accepted[node.step + 1 := average])
  }

  /** A new process of a worker: it resumes from disk, or from nothing if the disk went with its pod. */
  function Restarted(node: Node, rank: int, incarnation: string, number: nat, keepDisk: bool): Node {
    var step := if keepDisk then node.disk else 0;
    Node(incarnation, Joining(JoinMessage(rank, step, incarnation, number)), step, step, node.accepted)
  }

  function ApplyReduce(s: System, m: ReduceMessage): System {
    var h := Handle(s.coordinator, Request(m));
    s.(coordinator := h.state,
       waits := if h.outcome.Waiting? then s.waits + {m} else s.waits,
       finished := if h.outcome.Waiting? && m.step in h.state.completed
                   then With(s.finished, (m.session, m.step), h.state.completed[m.step]) else s.finished,
       answers := match h.outcome
                  case Cached(average) => s.answers + {Averaged(m, average)}
                  case SessionChanged => s.answers + {Changed(m)}
                  case _ => s.answers)
  }

  function ApplyJoin(s: System, j: JoinMessage, freshId: string): System {
    var joined := Join(s.coordinator, JoinOf(j), freshId);
    if joined.Refused? || joined.state.session.None? then s
    else
      var session := joined.state.session.value;
      s.(coordinator := joined.state,
         ids := s.ids + {joined.id},
         retired := if TearsDown(s.coordinator, JoinOf(j)) && s.coordinator.session.Some?
                    then s.retired + {s.coordinator.session.value.id} else s.retired,
         joinWaits := s.joinWaits + {(j, joined.id)},
         started := if session.started && joined.id !in s.started
                    then s.started[joined.id := session.step] else s.started)
  }

  function Apply(s: System, a: Action): System
    requires Enabled(s, a)
  {
    match a
    case SendReduce(rank) => s.(sent := s.sent + {CurrentRequest(s, rank)})
    case DeliverReduce(m) => ApplyReduce(s, m)
    case WakeDone(m, average) => s.(answers := s.answers + {Averaged(m, average)})
    case WakeChanged(m) => s.(answers := s.answers + {Changed(m)})
    case DeliverJoin(j, freshId) => ApplyJoin(s, j, freshId)
    case AcceptJoin(rank, session) =>
      s.(nodes := s.nodes[rank := Resumed(s.nodes[rank], session, s.started[session])],
         visited := s.visited[(session, rank) := s.nodes[rank].incarnation])
    case AcceptAverage(rank, average, save) =>
      s.(nodes := s.nodes[rank := Advanced(s.nodes[rank], average, save)])
    case AcceptChanged(rank, number) =>
      var node := s.nodes[rank];
      var call := JoinMessage(rank, node.step, node.incarnation, number);
      s.(nodes := s.nodes[rank := node.(mode := Joining(call))], joins := s.joins + {call})
    case Crash(rank, incarnation, number, keepDisk) =>
      // rank 0 hosts the coordinator, which restarts with it
      var node := Restarted(s.nodes[rank], rank, incarnation, number, keepDisk);
      s.(nodes := s.nodes[rank := node], incarnations := s.incarnations + {incarnation},
         joins := s.joins + {node.mode.call},
         coordinator := if rank == 0 then Fresh(s.world) else s.coordinator)
  }

  /** Every rank starts with an empty checkpoint and is about to join a new coordinator. */
  ghost predicate Init(s: System) {
    && s.world >= 1 && s.coordinator == Fresh(s.world) && s.nodes.Keys == Below(s.world)
    && (forall r | r in s.nodes ::
          var node := s.nodes[r];
          && node.incarnation != "" && node.incarnation in s.incarnations
          && node.step == 0 && node.disk == 0 && node.accepted == map[]
          && node.mode.Joining? && node.mode.call in s.joins
          && node.mode.call.rank == r && node.mode.call.step == 0 && node.mode.call.incarnation == node.incarnation)
    && (forall j | j in s.joins :: j.rank in s.nodes && s.nodes[j.rank].mode == Joining(j))
    && s.ids == {} && s.sent == {} && s.joinWaits == {} && s.waits == {} && s.answers == {}
    && s.started == map[] && s.retired == {} && s.finished == map[] && s.visited == map[]
  }

  /** A run: a first state and the actions taken from it, each enabled when taken. */
  ghost predicate IsRun(run: seq<System>, actions: seq<Action>) {
    && |run| == |actions| + 1 && Init(run[0])
    && forall i | 0 <= i < |actions| :: Enabled(run[i], actions[i]) && run[i + 1] == Apply(run[i], actions[i])
  }
}
