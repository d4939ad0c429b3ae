/** Whole processes of a worker as actions of the training job, with anything the rest of the job does in between. */
module WorkerRuns {
  import opened Prelude
  import opened Workers
  import Cluster

  /** An action and the state in which it is taken. */
  datatype Taken = Taken(state: Cluster.System, action: Cluster.Action)

  predicate OfRank(a: Cluster.Action, rank: int) {
    match a
    case AcceptJoin(r, _) => r == rank
    case AcceptAverage(r, _, _) => r == rank
    case AcceptChanged(r, _) => r == rank
    case Crash(r, _, _, _) => r == rank
    case _ => false
  }

  /** Actions of one rank, each enabled when it is taken; between them nobody else touches the rank's node. */
  ghost predicate Chained(rank: int, node: Cluster.Node, taken: seq<Taken>)
    decreases |taken|
  {
    taken == [] ||
    var x := taken[0];
    && OfRank(x.action, rank) && rank in x.state.nodes && x.state.nodes[rank] == node
    && Cluster.Enabled(x.state, x.action)
    && Chained(rank, After(rank, x), taken[1..])
  }

  /** The rank's node after one of its actions. */
  ghost function After(rank: int, x: Taken): Cluster.Node
    requires OfRank(x.action, rank) && Cluster.Enabled(x.state, x.action)
  {
    Cluster.Apply(x.state, x.action).nodes[rank]
  }

  /** The rank's node after all of them. */
  ghost function Left(rank: int, node: Cluster.Node, taken: seq<Taken>): Cluster.Node
    requires Chained(rank, node, taken)
    decreases |taken|
  {
    if taken == [] then node else Left(rank, After(rank, taken[0]), taken[1..])
  }

  lemma {:induction false} ChainedThenChained(rank: int, node: Cluster.Node, first: seq<Taken>, second: seq<Taken>)
    requires Chained(rank, node, first) && Chained(rank, Left(rank, node, first), second)
    ensures Chained(rank, node, first + second)
    ensures Left(rank, node, first + second) == Left(rank, Left(rank, node, first), second)
    decreases |first|
  {
    if first == [] {
      assert first + second == second;
    } else {
      assert (first + second)[0] == first[0] && (first + second)[1..] == first[1..] + second;
      ChainedThenChained(rank, After(rank, first[0]), first[1..], second);
    }
  }

  lemma OneAction(rank: int, node: Cluster.Node, x: Taken)
    requires OfRank(x.action, rank) && rank in x.state.nodes && x.state.nodes[rank] == node
    requires Cluster.Enabled(x.state, x.action)
    ensures Chained(rank, node, [x]) && Left(rank, node, [x]) == After(rank, x)
  {
    assert [x][1..] == [];
  }

  lemma TwoActions(rank: int, node: Cluster.Node, x: Taken, y: Taken)
    requires OfRank(x.action, rank) && rank in x.state.nodes && x.state.nodes[rank] == node
    requires Cluster.Enabled(x.state, x.action)
    requires OfRank(y.action, rank) && rank in y.state.nodes && y.state.nodes[rank] == After(rank, x)
    requires Cluster.Enabled(y.state, y.action)
    ensures Chained(rank, node, [x, y]) && Left(rank, node, [x, y]) == After(rank, y)
  {
    assert [x, y][1..] == [y];
    OneAction(rank, After(rank, x), y);
  }

  // ---------------------------------------------------------------------------------------------
  // One turn
  // ---------------------------------------------------------------------------------------------

  /** Where a turn of the loop meets the job: the state in which a reduction is decided, the number of a join call, and
      the state in which that call is answered. */
  datatype Meeting = Meeting(decided: Cluster.System, number: nat, joined: Cluster.System)

  /** The process at a loop head is the job's node, and its file is not ahead of it. */
  ghost predicate Sound(p: Process, node: Cluster.Node) {
    Matches(p, node) && 0 <= node.disk <= node.step
  }

  /** The join call of a worker that leaves its session. */
  ghost function NextCall(rank: int, node: Cluster.Node, number: nat): Cluster.JoinMessage {
    Cluster.JoinMessage(rank, node.step, node.incarnation, number)
  }

  /** The replies a turn acts on were given by the job. */
  ghost predicate TurnBacked(rank: int, total: int, p: Process, it: Iteration, node: Cluster.Node, m: Meeting)
    requires node.mode.Training?
  {
    && rank in m.decided.nodes && m.decided.nodes[rank] == node
    && (it.cancel != CancelledWaiting ==>
          match ReduceOutcome(it.attempts, MAX_ATTEMPTS)
          case Averaged(average) =>
            Cluster.Averaged(Cluster.CurrentRequest(m.decided, rank), average) in m.decided.answers
          case SessionChanged =>
            Iterate(rank, total, p, it).Continue? ==>
              RejoinBacked(rank, node, m, Iterate(rank, total, p, it).process)
          case AttemptFailed => true)
  }

  ghost predicate RejoinBacked(rank: int, node: Cluster.Node, m: Meeting, next: Process)
    requires node.mode.Training? && rank in m.decided.nodes && m.decided.nodes[rank] == node
  {
    var call := NextCall(rank, node, m.number);
    && Cluster.Changed(Cluster.CurrentRequest(m.decided, rank)) in m.decided.answers && call !in m.decided.joins
    && rank in m.joined.nodes && m.joined.nodes[rank] == node.(mode := Cluster.Joining(call))
    && Answered(m.joined, call, next.session, next.cp.step)
  }

  /** A process that ends with an average it still saved. */
  predicate SavedAtTheEnd(p: Process, end: End) {
    end.disk.Saved? && end.disk.checkpoint.step == p.cp.step + 1
  }

  /** The actions of a turn. */
  ghost function TurnTaken(rank: int, total: int, p: Process, it: Iteration, m: Meeting): seq<Taken> {
    match Iterate(rank, total, p, it)
    case Continue(next) =>
      (match ReduceOutcome(it.attempts, MAX_ATTEMPTS)
       case Averaged(average) =>
         [Taken(m.decided, Cluster.AcceptAverage(rank, average, CheckpointDue(total, p.cp.step + 1, it)))]
       case SessionChanged =>
         [Taken(m.decided, Cluster.AcceptChanged(rank, m.number)),
          Taken(m.joined, Cluster.AcceptJoin(rank, next.session))]
       case AttemptFailed => [])
    case Stop(end) =>
      match ReduceOutcome(it.attempts, MAX_ATTEMPTS)
      case Averaged(average) =>
        if SavedAtTheEnd(p, end) then [Taken(m.decided, Cluster.AcceptAverage(rank, average, true))] else []
      case _ => []
  }

  /** A turn that goes on leaves the node the process is at; a turn that ends leaves the step on disk. */
  ghost predicate TurnLeaves(rank: int, total: int, p: Process, it: Iteration, node: Cluster.Node) {
    match Iterate(rank, total, p, it)
    case Continue(next) => Sound(next, node)
    case Stop(end) => end.disk.Saved? && end.disk.checkpoint.step == node.disk
  }

  lemma TurnWithAverage(rank: int, total: int, p: Process, it: Iteration, node: Cluster.Node, m: Meeting)
    requires Sound(p, node) && node.mode.Training? && TurnBacked(rank, total, p, it, node, m)
    requires Iterate(rank, total, p, it).Continue? && ReduceOutcome(it.attempts, MAX_ATTEMPTS).Averaged?
    ensures var taken := TurnTaken(rank, total, p, it, m);
            Chained(rank, node, taken) && TurnLeaves(rank, total, p, it, Left(rank, node, taken))
  {
    TurnIsAnAction(rank, total, p, it, m.decided);
    OneAction(rank, node, TurnTaken(rank, total, p, it, m)[0]);
  }

  lemma TurnWithRejoin(rank: int, total: int, p: Process, it: Iteration, node: Cluster.Node, m: Meeting)
    requires Sound(p, node) && node.mode.Training? && TurnBacked(rank, total, p, it, node, m)
    requires Iterate(rank, total, p, it).Continue? && ReduceOutcome(it.attempts, MAX_ATTEMPTS).SessionChanged?
    ensures var taken := TurnTaken(rank, total, p, it, m);
            Chained(rank, node, taken) && TurnLeaves(rank, total, p, it, Left(rank, node, taken))
  {
    RejoinIsTwoActions(rank, total, p, it, m.number, m.decided, m.joined);
    var taken := TurnTaken(rank, total, p, it, m);
    TwoActions(rank, node, taken[0], taken[1]);
  }

  lemma TurnThatStops(rank: int, total: int, p: Process, it: Iteration, node: Cluster.Node, m: Meeting)
    requires Sound(p, node) && node.mode.Training? && TurnBacked(rank, total, p, it, node, m)
    requires Iterate(rank, total, p, it).Stop?
    ensures var taken := TurnTaken(rank, total, p, it, m);
            Chained(rank, node, taken) && TurnLeaves(rank, total, p, it, Left(rank, node, taken))
  {
    StopLeavesDisk(rank, total, p, it, node);
    var taken := TurnTaken(rank, total, p, it, m);
    if taken != [] {
      assert it.cancel != CancelledWaiting;
      OneAction(rank, node, taken[0]);
    }
  }

  lemma TurnIsChained(rank: int, total: int, p: Process, it: Iteration, node: Cluster.Node, m: Meeting)
    requires Sound(p, node) && node.mode.Training? && TurnBacked(rank, total, p, it, node, m)
    ensures var taken := TurnTaken(rank, total, p, it, m);
            Chained(rank, node, taken) && TurnLeaves(rank, total, p, it, Left(rank, node, taken))
  {
    if Iterate(rank, total, p, it).Stop? {
      TurnThatStops(rank, total, p, it, node, m);
    } else {
      match ReduceOutcome(it.attempts, MAX_ATTEMPTS)
      case Averaged(_) => TurnWithAverage(rank, total, p, it, node, m);
      case SessionChanged => TurnWithRejoin(rank, total, p, it, node, m);
      case AttemptFailed => IterateIsAnAction(rank, total, p, it, node);
    }
  }

  // ---------------------------------------------------------------------------------------------
  // The loop
  // ---------------------------------------------------------------------------------------------

  predicate Done(total: int, p: Process) {
    total != 0 && p.cp.step + 1 > total
  }

  ghost function LoopTaken(rank: int, total: int, p: Process, its: seq<Iteration>, ms: seq<Meeting>): seq<Taken>
    requires |ms| == |its|
    decreases |its|
  {
    if Done(total, p) || its == [] then []
    else match Iterate(rank, total, p, its[0])
         case Continue(next) =>
           TurnTaken(rank, total, p, its[0], ms[0]) + LoopTaken(rank, total, next, its[1..], ms[1..])
         case Stop(_) => TurnTaken(rank, total, p, its[0], ms[0])
  }

  /** In every turn the replies were given by the job, and the node was as the turn before had left it. */
  ghost predicate LoopBacked(rank: int, total: int, p: Process, its: seq<Iteration>, ms: seq<Meeting>,
                             node: Cluster.Node)
    requires |ms| == |its|
    decreases |its|
  {
    Done(total, p) || its == [] ||
    (&& node.mode.Training? && TurnBacked(rank, total, p, its[0], node, ms[0])
     && match Iterate(rank, total, p, its[0])
        case Continue(next) =>
          var taken := TurnTaken(rank, total, p, its[0], ms[0]);
          Chained(rank, node, taken) ==>
            LoopBacked(rank, total, next, its[1..], ms[1..], Left(rank, node, taken))
        case Stop(_) => true)
  }

  lemma {:induction false} LoopIsChained(rank: int, total: int, p: Process, its: seq<Iteration>, ms: seq<Meeting>,
                                         node: Cluster.Node)
    requires |ms| == |its| && Sound(p, node) && LoopBacked(rank, total, p, its, ms, node)
    ensures var taken, end := LoopTaken(rank, total, p, its, ms), LoopFrom(rank, total, p, its);
            && Chained(rank, node, taken)
            && end.disk.Saved? && end.disk.checkpoint.step == Left(rank, node, taken).disk
    decreases |its|
  {
    if !Done(total, p) && its != [] {
      TurnIsChained(rank, total, p, its[0], node, ms[0]);
      match Iterate(rank, total, p, its[0])
      case Continue(next) =>
        var taken := TurnTaken(rank, total, p, its[0], ms[0]);
        var left := Left(rank, node, taken);
        LoopIsChained(rank, total, next, its[1..], ms[1..], left);
        ChainedThenChained(rank, node, taken, LoopTaken(rank, total, next, its[1..], ms[1..]));
      case Stop(_) =>
    }
  }

  // ---------------------------------------------------------------------------------------------
  // A process, and one after another
  // ---------------------------------------------------------------------------------------------

  /** Where a process starts: the state in which the one before ends, the new one's name and the number of its call, and
      the state in which that call is answered. */
  datatype Birth = Birth(ended: Cluster.System, incarnation: string, number: nat, joined: Cluster.System)

  ghost predicate BirthBacked(rank: int, disk: Disk, start: Start, node: Cluster.Node, b: Birth) {
    && rank in b.ended.nodes && b.ended.nodes[rank] == node
    && b.incarnation != "" && b.incarnation !in b.ended.incarnations
    && (Begin(disk, start).Continue? ==>
          var p := Begin(disk, start).process;
          var restarted := Cluster.Restarted(node, rank, b.incarnation, b.number, disk.Saved?);
          && rank in b.joined.nodes && b.joined.nodes[rank] == restarted
          && Answered(b.joined, restarted.mode.call, p.session, p.cp.step))
  }

  /** The restart keeps the disk exactly if there is a file; it is taken up once the join is answered. */
  ghost function BirthTaken(rank: int, disk: Disk, start: Start, b: Birth): seq<Taken> {
    var restart := Taken(b.ended, Cluster.Crash(rank, b.incarnation, b.number, disk.Saved?));
    match Begin(disk, start)
    case Continue(p) => [restart, Taken(b.joined, Cluster.AcceptJoin(rank, p.session))]
    case Stop(_) => [restart]
  }

  /** The file, if there is one, holds the step the job's node has on disk. */
  predicate OnFile(disk: Disk, node: Cluster.Node) {
    disk.Saved? ==> node.disk == disk.checkpoint.step
  }

  lemma BirthIsChained(rank: int, disk: Disk, start: Start, node: Cluster.Node, b: Birth)
    requires OnFile(disk, node) && BirthBacked(rank, disk, start, node, b)
    ensures var taken := BirthTaken(rank, disk, start, b);
            && Chained(rank, node, taken)
            && match Begin(disk, start)
               case Continue(p) => Sound(p, Left(rank, node, taken))
               case Stop(end) => OnFile(end.disk, Left(rank, node, taken))
  {
    var taken := BirthTaken(rank, disk, start, b);
    match Begin(disk, start)
    case Continue(p) =>
      BeginIsTwoActions(disk, start, rank, b.incarnation, b.number, b.ended, b.joined);
      TwoActions(rank, node, taken[0], taken[1]);
    case Stop(end) =>
      OneAction(rank, node, taken[0]);
  }

  /** A whole process: its script, and where it meets the job. */
  datatype Embedded = Embedded(script: Script, birth: Birth, meetings: seq<Meeting>)

  ghost predicate LifeBacked(rank: int, total: int, disk: Disk, e: Embedded, node: Cluster.Node) {
    && |e.meetings| == |e.script.its| && BirthBacked(rank, disk, e.script.start, node, e.birth)
    && (Begin(disk, e.script.start).Continue? ==>
          var taken := BirthTaken(rank, disk, e.script.start, e.birth);
          Chained(rank, node, taken) ==>
            LoopBacked(rank, total, Begin(disk, e.script.start).process, e.script.its, e.meetings,
                       Left(rank, node, taken)))
  }

  ghost function LifeTaken(rank: int, total: int, disk: Disk, e: Embedded): seq<Taken>
    requires |e.meetings| == |e.script.its|
  {
    BirthTaken(rank, disk, e.script.start, e.birth)
    + match Begin(disk, e.script.start)
      case Continue(p) => LoopTaken(rank, total, p, e.script.its, e.meetings)
      case Stop(_) => []
  }

  /** A whole process, from restart to whatever ends it, is a sequence of the job's actions of its rank, each enabled
      when it is taken, given that the replies it acts on are the job's; and the step on its file at the end is the step
      the job's node has on disk, so the next process starts from there. */
  lemma LifeIsChained(rank: int, total: int, disk: Disk, e: Embedded, node: Cluster.Node)
    requires OnFile(disk, node) && LifeBacked(rank, total, disk, e, node)
    ensures var taken := LifeTaken(rank, total, disk, e);
            && Chained(rank, node, taken)
            && OnFile(Life(rank, total, disk, e.script.start, e.script.its).disk, Left(rank, node, taken))
  {
    BirthIsChained(rank, disk, e.script.start, node, e.birth);
    var birth := BirthTaken(rank, disk, e.script.start, e.birth);
    match Begin(disk, e.script.start)
    case Continue(p) =>
      var rest := LoopTaken(rank, total, p, e.script.its, e.meetings);
      LoopIsChained(rank, total, p, e.script.its, e.meetings, Left(rank, node, birth));
      ChainedThenChained(rank, node, birth, rest);
    case Stop(_) =>
      assert birth + [] == birth;
  }

  ghost predicate LivesBacked(rank: int, total: int, disk: Disk, lives: seq<Embedded>, node: Cluster.Node)
    decreases |lives|
  {
    lives == [] ||
    var e := lives[0];
    && LifeBacked(rank, total, disk, e, node)
    && (var taken := LifeTaken(rank, total, disk, e);
        Chained(rank, node, taken) ==>
          LivesBacked(rank, total, Life(rank, total, disk, e.script.start, e.script.its).disk, lives[1..],
                      Left(rank, node, taken)))
  }

  ghost function LivesTaken(rank: int, total: int, disk: Disk, lives: seq<Embedded>): seq<Taken>
    requires forall i | 0 <= i < |lives| :: |lives[i].meetings| == |lives[i].script.its|
    decreases |lives|
  {
    if lives == [] then []
    else LifeTaken(rank, total, disk, lives[0])
         + LivesTaken(rank, total, Life(rank, total, disk, lives[0].script.start, lives[0].script.its).disk, lives[1..])
  }

  /** So is any number of processes one after another on the same file. */
  lemma {:induction false} LivesAreChained(rank: int, total: int, disk: Disk, lives: seq<Embedded>, node: Cluster.Node)
    requires OnFile(disk, node) && LivesBacked(rank, total, disk, lives, node)
    requires forall i | 0 <= i < |lives| :: |lives[i].meetings| == |lives[i].script.its|
    ensures Chained(rank, node, LivesTaken(rank, total, disk, lives))
    decreases |lives|
  {
    if lives != [] {
      var e := lives[0];
      LifeIsChained(rank, total, disk, e, node);
      var taken := LifeTaken(rank, total, disk, e);
      var next := Life(rank, total, disk, e.script.start, e.script.its).disk;
      LivesAreChained(rank, total, next, lives[1..], Left(rank, node, taken));
      ChainedThenChained(rank, node, taken, LivesTaken(rank, total, next, lives[1..]));
    }
  }
}
