/** One worker: its checkpoint file, its retry loops and its training loop, over any number of processes. What
    happens around a process is a script; a process that is killed is one whose script ends. */
module Workers {
  import opened Prelude
  import opened Text
  import C = ControlDocument
  import F = ControlFaults
  import Cluster

  // ---------------------------------------------------------------------------------------------
  // The checkpoint file
  // ---------------------------------------------------------------------------------------------

  datatype Checkpoint = Checkpoint(step: int, restarts: int, applied: map<string, bool>)

  datatype Disk = Missing | Unreadable | Saved(checkpoint: Checkpoint)

  /** Where saving a checkpoint goes wrong, if it does. */
  datatype Fault = NoFault | CreateFails | WriteFails | CloseFails | RenameFails

  function Load(disk: Disk): Option<Checkpoint> {
    match disk
    case Missing => Some(Checkpoint(0, 0, map[]))
    case Unreadable => None
    case Saved(cp) => if cp.step < 0 || cp.restarts < 0 then None else Some(cp)
  }

  function AfterSave(disk: Disk, cp: Checkpoint, fault: Fault): Disk {
    if fault == NoFault then Saved(cp) else disk
  }

  /** What a file may hold while it is written. */
  datatype Content = Empty | Partial | Whole(checkpoint: Checkpoint)

  function OnDisk(content: Content): Disk {
    if content.Whole? then Saved(content.checkpoint) else Unreadable
  }

  class CheckpointFile {
    var disk: Disk
    var temporary: Option<Content>

    constructor (disk: Disk)
      ensures this.disk == disk && temporary == None
    {
      this.disk := disk;
      temporary := None;
    }

    /** Writes a temporary file and renames it over the checkpoint, which takes whatever the temporary file holds: only a
        wholly written file is ever renamed, so whatever fails, the checkpoint is the old one or the new one. */
    method Save(cp: Checkpoint, fault: Fault) returns (ok: bool)
      modifies this
      ensures ok <==> fault == NoFault
      ensures disk == AfterSave(old(disk), cp, fault) && temporary == None
    {
      ok := false;
      temporary := None;
      if fault == CreateFails {
        return;
      }
      temporary := Some(Empty);
      var failed := fault == WriteFails;
      temporary := Some(if failed then Partial else Whole(cp));
      if !failed && fault == CloseFails {
        failed, temporary := true, Some(Partial);
      }
      if !failed && fault != RenameFails {
        disk := OnDisk(temporary.value);
        ok := true;
      }
      temporary := None;
    }
  }

  // ---------------------------------------------------------------------------------------------
  // Retry loops
  // ---------------------------------------------------------------------------------------------

  const MAX_ATTEMPTS := 8

  /** One HTTP attempt of an allreduce: an average, the session-changed reply, or any failure. */
  datatype ReduceAttempt = Averaged(average: real) | SessionChanged | AttemptFailed

  /** The first decisive attempt within the budget; `AttemptFailed` if there is none. */
  function ReduceOutcome(attempts: seq<ReduceAttempt>, budget: nat): ReduceAttempt {
    if attempts == [] || budget == 0 then AttemptFailed
    else if attempts[0].AttemptFailed? then ReduceOutcome(attempts[1..], budget - 1)
    else attempts[0]
  }

  /** The outcome is the first attempt that is not a failure, among those within the budget; a failure if all are. */
  lemma {:induction false} ReduceOutcomeIsFirst(attempts: seq<ReduceAttempt>, budget: nat)
    ensures var result, tried := ReduceOutcome(attempts, budget), Min(|attempts|, budget);
            if result.AttemptFailed? then forall i | 0 <= i < tried :: attempts[i].AttemptFailed?
            else exists i :: 0 <= i < tried && attempts[i] == result && forall j | 0 <= j < i :: attempts[j].AttemptFailed?
  {
    if attempts != [] && budget > 0 && attempts[0].AttemptFailed? {
      ReduceOutcomeIsFirst(attempts[1..], budget - 1);
      var result := ReduceOutcome(attempts, budget);
      if result.AttemptFailed? {
        assert forall i | 0 < i < Min(|attempts|, budget) :: attempts[i] == attempts[1..][i - 1];
      } else {
        var i :| 0 <= i < Min(|attempts| - 1, budget - 1) && attempts[1..][i] == result
                 && forall j | 0 <= j < i :: attempts[1..][j].AttemptFailed?;
        assert attempts[i + 1] == result;
        assert forall j | 0 < j < i + 1 :: attempts[j] == attempts[1..][j - 1];
      }
    }
  }

  method ReduceWithRetry(attempts: seq<ReduceAttempt>) returns (result: ReduceAttempt)
    ensures result == ReduceOutcome(attempts, MAX_ATTEMPTS)
    ensures result.AttemptFailed? <==> forall i | 0 <= i < 8 && i < |attempts| :: attempts[i].AttemptFailed?
  {
    ReduceOutcomeIsFirst(attempts, MAX_ATTEMPTS);
    var attempt := 0;
    while attempt < MAX_ATTEMPTS
      invariant 0 <= attempt <= MAX_ATTEMPTS && attempt <= |attempts|
      invariant ReduceOutcome(attempts, MAX_ATTEMPTS) == ReduceOutcome(attempts[attempt..], MAX_ATTEMPTS - attempt)
    {
      if attempt == |attempts| {
        return AttemptFailed;
      }
      if !attempts[attempt].AttemptFailed? {
        return attempts[attempt];
      }
      attempt := attempt + 1;
    }
    return AttemptFailed;
  }

  /** One HTTP attempt of a join: no response, an undecodable one, a reply, or another status. */
  datatype JoinAttempt = NoResponse | Garbled | Replied(session: string, step: int) | Status(code: int, protocol2: bool)

  datatype JoinResult = JoinedAt(session: string, step: int) | JoinFailed

  /** What an attempt decides for a worker at `step`; nothing if it is to be retried. */
  function Decide(a: JoinAttempt, step: int): Option<JoinResult> {
    match a
    case NoResponse => None
    case Garbled => Some(JoinFailed)
    case Replied(session, k) => Some(if session == "" || k < 0 || k > step then JoinFailed else JoinedAt(session, k))
    case Status(code, protocol2) =>
      if protocol2 && 400 <= code < 500 && code != 409 then Some(JoinFailed) else None
  }

  function JoinOutcome(attempts: seq<JoinAttempt>, step: int): JoinResult {
    if attempts == [] then JoinFailed
    else match Decide(attempts[0], step)
         case Some(result) => result
         case None => JoinOutcome(attempts[1..], step)
  }

  method JoinWithRetry(attempts: seq<JoinAttempt>, step: int) returns (result: JoinResult)
    ensures result == JoinOutcome(attempts, step)
  {
    var i := 0;
    while i < |attempts|
      invariant 0 <= i <= |attempts|
      invariant JoinOutcome(attempts, step) == JoinOutcome(attempts[i..], step)
    {
      var decision := Decide(attempts[i], step);
      if decision.Some? {
        return decision.value;
      }
      i := i + 1;
    }
    return JoinFailed;
  }

  /** A join that succeeds was answered, and can only lower the worker's step. */
  lemma {:induction false} JoinOnlyLowers(attempts: seq<JoinAttempt>, step: int)
    ensures var result := JoinOutcome(attempts, step);
            result.JoinedAt? ==>
              result.session != "" && 0 <= result.step <= step && Replied(result.session, result.step) in attempts
  {
    if attempts != [] && Decide(attempts[0], step).None? {
      JoinOnlyLowers(attempts[1..], step);
    }
  }

  /** An attempt after which a join tries again: no response, or a status that need not be for good, which is any but a
      client error of this protocol other than 409. */
  predicate Retried(a: JoinAttempt) {
    || a.NoResponse?
    || (a.Status? && !(a.protocol2 && 400 <= a.code < 500 && a.code != 409))
  }

  /** Attempt `i` is this reply, and all before it were to be retried. */
  ghost predicate FirstReply(attempts: seq<JoinAttempt>, i: int, session: string, k: int) {
    && 0 <= i < |attempts| && attempts[i] == Replied(session, k)
    && forall j | 0 <= j < i :: Retried(attempts[j])
  }

  /** A join succeeds exactly when the first attempt that is not retried names a session and a step from 0 to the
      worker's own, and then gives those. */
  lemma {:induction false} JoinedExactly(attempts: seq<JoinAttempt>, step: int, session: string, k: int)
    ensures JoinOutcome(attempts, step) == JoinedAt(session, k) <==>
            session != "" && 0 <= k <= step && exists i :: FirstReply(attempts, i, session, k)
  {
    if attempts != [] {
      var rest := attempts[1..];
      JoinedExactly(rest, step, session, k);
      if Retried(attempts[0]) {
        forall i | FirstReply(rest, i, session, k)
          ensures FirstReply(attempts, i + 1, session, k)
        {
          assert forall j | 0 < j <= i :: attempts[j] == rest[j - 1];
        }
        forall i | FirstReply(attempts, i, session, k)
          ensures i > 0 && FirstReply(rest, i - 1, session, k)
        {
          assert forall j | 0 <= j < i - 1 :: rest[j] == attempts[j + 1];
        }
      } else {
        assert forall i | FirstReply(attempts, i, session, k) :: i == 0;
        assert attempts[0] == Replied(session, k) ==> FirstReply(attempts, 0, session, k);
      }
    }
  }

  // ---------------------------------------------------------------------------------------------
  // One process
  // ---------------------------------------------------------------------------------------------

  /** The gauges and counters the properties speak about. */
  datatype Metrics = Metrics(step: int, samples: int, checkpoint: int, restarts: int, errors: int, up: bool)

  /** A process at the head of its training loop; `reductions` counts its successful reductions. */
  datatype Process = Process(cp: Checkpoint, disk: Disk, session: string, metrics: Metrics, reductions: nat)

  datatype Exit =
    | Completed
    | Cancelled
    | Killed
    | LoadFailed
    | SaveFailed
    | NotJoined
    | CrashInjected(id: string)

  /** The disk a process leaves behind and how it ended. */
  datatype End = End(disk: Disk, exit: Exit)

  datatype Outcome = Continue(process: Process) | Stop(end: End)

  /** What happens when a crash has been recorded: the save fails, the process ends by the injected error, or it is
      killed in between. */
  datatype CrashSave = CrashSaveFails | CrashReported | KilledBeforeReport

  /** Where the context of a process is cancelled during an iteration, if it is. */
  datatype Cancel = NotCancelled | CancelledWaiting | CancelledReducing | CancelledBackingOff

  datatype Start = Start(save: Fault, joins: seq<JoinAttempt>, joinSave: Fault)

  /** One turn of the loop: the control in force after any fabric wait, and how each call turns out. */
  datatype Iteration = Iteration(
    control: C.Control,
    attempts: seq<ReduceAttempt>,
    joins: seq<JoinAttempt>,
    joinSave: Fault,
    due: bool,
    save: Fault,
    crashSave: CrashSave,
    cancel: Cancel)

  function Rejoin(p: Process, joins: seq<JoinAttempt>, save: Fault): Outcome {
    match JoinOutcome(joins, p.cp.step)
    case JoinFailed => Stop(End(p.disk, NotJoined))
    case JoinedAt(session, step) =>
      var cp := p.cp.(step := step);
      if save != NoFault then Stop(End(p.disk, SaveFailed))
      else Continue(Process(cp, Saved(cp), session,
                            p.metrics.(step := step, checkpoint := step, up := true), p.reductions))
  }

  function Begin(disk: Disk, start: Start): Outcome {
    match Load(disk)
    case None => Stop(End(disk, LoadFailed))
    case Some(loaded) =>
      var cp := loaded.(restarts := loaded.restarts + 1);
      if start.save != NoFault then Stop(End(disk, SaveFailed))
      else
        var metrics := Metrics(cp.step, cp.step * 32, cp.step, cp.restarts, 0, false);
        Rejoin(Process(cp, Saved(cp), "", metrics, 0), start.joins, start.joinSave)
  }

  predicate Applied(cp: Checkpoint, id: string) {
    id in cp.applied && cp.applied[id]
  }

  /** The crash a control document injects into this rank now, if any. */
  function PendingCrash(control: C.Control, rank: int, cp: Checkpoint): Option<string> {
    if control.crash.Some? && control.crash.value.enabled && control.crash.value.rank == rank
       && C.CrashId(control) != "" && !Applied(cp, C.CrashId(control))
    then Some(C.CrashId(control)) else None
  }

  /** The end of a turn: the crash injection is recorded on disk before the process ends. */
  function CrashOrContinue(rank: int, p: Process, it: Iteration): Outcome {
    match PendingCrash(it.control, rank, p.cp)
    case None => Continue(p)
    case Some(id) =>
      var cp := p.cp.(applied := p.cp.applied[id := true]);
      match it.crashSave
      case CrashSaveFails => Stop(End(p.disk, SaveFailed))
      case CrashReported => Stop(End(Saved(cp), CrashInjected(id)))
      case KilledBeforeReport => Stop(End(Saved(cp), Killed))
  }

  /** A checkpoint is due when its interval has passed or the last step is done. */
  predicate CheckpointDue(total: int, step: int, it: Iteration) {
    it.due || (total > 0 && step == total)
  }

  function Reduced(rank: int, total: int, p: Process, it: Iteration): Outcome {
    var step := p.cp.step + 1;
    var cp := p.cp.(step := step);
    var metrics := p.metrics.(step := step, samples := p.metrics.samples + 32);
    if CheckpointDue(total, step, it) then
      if it.save != NoFault then Stop(End(p.disk, SaveFailed))
      else CrashOrContinue(rank, Process(cp, Saved(cp), p.session, metrics.(checkpoint := step), p.reductions + 1), it)
    else CrashOrContinue(rank, Process(cp, p.disk, p.session, metrics, p.reductions + 1), it)
  }

  function Iterate(rank: int, total: int, p: Process, it: Iteration): Outcome {
    if it.cancel == CancelledWaiting then Stop(End(p.disk, Cancelled))
    else
      var failed := p.(metrics := p.metrics.(errors := p.metrics.errors + 1));
      match ReduceOutcome(it.attempts, MAX_ATTEMPTS)
      case Averaged(_) => Reduced(rank, total, p, it)
      case SessionChanged =>
        if it.cancel == CancelledReducing then Stop(End(p.disk, Cancelled))
        else Rejoin(failed.(metrics := failed.metrics.(up := false)), it.joins, it.joinSave)
      case AttemptFailed =>
        if it.cancel == CancelledReducing || it.cancel == CancelledBackingOff then Stop(End(p.disk, Cancelled))
        else Continue(failed)
  }

  /** The loop from a loop head to the end of the process. */
  function LoopFrom(rank: int, total: int, p: Process, its: seq<Iteration>): End
    decreases |its|
  {
    if total != 0 && p.cp.step + 1 > total then End(p.disk, Completed)
    else if its == [] then End(p.disk, Killed)
    else match Iterate(rank, total, p, its[0])
         case Continue(next) => LoopFrom(rank, total, next, its[1..])
         case Stop(end) => end
  }

  /** One process from start to end. */
  function Life(rank: int, total: int, disk: Disk, start: Start, its: seq<Iteration>): End {
    match Begin(disk, start)
    case Continue(p) => LoopFrom(rank, total, p, its)
    case Stop(end) => end
  }

  // ---------------------------------------------------------------------------------------------
  // How turns and processes end
  // ---------------------------------------------------------------------------------------------

  /** A process gets to its loop exactly when its file is missing or holds a checkpoint in range, both its saves succeed
      and its join is answered; it then resumes on disk and in memory at the step joined, with one more restart. */
  lemma BeginsExactly(disk: Disk, start: Start)
    ensures var loaded := if disk.Saved? then disk.checkpoint else Checkpoint(0, 0, map[]);
            var usable := disk.Missing? || (disk.Saved? && loaded.step >= 0 && loaded.restarts >= 0);
            var joined := JoinOutcome(start.joins, loaded.step);
            match Begin(disk, start)
            case Continue(p) =>
              && usable && start.save == NoFault && joined == JoinedAt(p.session, p.cp.step) && start.joinSave == NoFault
              && p.cp == Checkpoint(p.cp.step, loaded.restarts + 1, loaded.applied) && p.disk == Saved(p.cp)
            case Stop(end) =>
              && end.exit == (if !usable then LoadFailed
                              else if start.save != NoFault || joined.JoinedAt? then SaveFailed else NotJoined)
              && (usable && start.save == NoFault && joined.JoinedAt? ==> start.joinSave != NoFault)
              && end.disk == if usable && start.save == NoFault then Saved(loaded.(restarts := loaded.restarts + 1))
                             else disk
  {
  }

  /** A turn ends the process exactly when it is cancelled while it waits or after a failure, when the save of a due or
      last step fails, when a rejoin fails or cannot be saved, and when a crash is pending. */
  lemma StopsExactly(rank: int, total: int, p: Process, it: Iteration)
    ensures Iterate(rank, total, p, it).Stop? <==>
            || it.cancel == CancelledWaiting
            || match ReduceOutcome(it.attempts, MAX_ATTEMPTS)
               case Averaged(_) =>
                 || ((it.due || (total > 0 && p.cp.step + 1 == total)) && it.save != NoFault)
                 || PendingCrash(it.control, rank, p.cp).Some?
               case SessionChanged =>
                 it.cancel == CancelledReducing || JoinOutcome(it.joins, p.cp.step).JoinFailed? || it.joinSave != NoFault
               case AttemptFailed => it.cancel == CancelledReducing || it.cancel == CancelledBackingOff
  {
    SameRecordSameCrash(it.control, rank, p.cp, p.cp.(step := p.cp.step + 1));
  }

  /** What a turn leaves when the process goes on: after an average the next step, on disk if it was due or the last;
      after a changed session the step joined, on disk; after a failed reduction everything but an error count. */
  lemma ContinuesWith(rank: int, total: int, p: Process, it: Iteration)
    requires Iterate(rank, total, p, it).Continue?
    ensures var next := Iterate(rank, total, p, it).process;
            match ReduceOutcome(it.attempts, MAX_ATTEMPTS)
            case Averaged(_) =>
              && next.cp == p.cp.(step := p.cp.step + 1) && next.session == p.session
              && next.disk == (if it.due || (total > 0 && next.cp.step == total) then Saved(next.cp) else p.disk)
              && next.metrics.errors == p.metrics.errors && next.metrics.samples == p.metrics.samples + 32
            case SessionChanged =>
              && JoinOutcome(it.joins, p.cp.step) == JoinedAt(next.session, next.cp.step)
              && next.cp == p.cp.(step := next.cp.step) && next.disk == Saved(next.cp)
              && next.metrics.errors == p.metrics.errors + 1 && next.metrics.samples == p.metrics.samples
            case AttemptFailed => next == p.(metrics := p.metrics.(errors := p.metrics.errors + 1))
  {
  }

  /** How and with what on disk a turn ends the process. */
  lemma StopsWith(rank: int, total: int, p: Process, it: Iteration)
    requires Iterate(rank, total, p, it).Stop?
    ensures var end := Iterate(rank, total, p, it).end;
            var cp := p.cp.(step := p.cp.step + 1);
            var due := it.due || (total > 0 && cp.step == total);
            var crash := PendingCrash(it.control, rank, p.cp);
            if it.cancel == CancelledWaiting then end == End(p.disk, Cancelled)
            else match ReduceOutcome(it.attempts, MAX_ATTEMPTS)
                 case Averaged(_) =>
                   if due && it.save != NoFault then end == End(p.disk, SaveFailed)
                   else if it.crashSave == CrashSaveFails then end == End(if due then Saved(cp) else p.disk, SaveFailed)
                   else
                     && crash.Some? && end.disk == Saved(cp.(applied := cp.applied[crash.value := true]))
                     && end.exit == if it.crashSave == CrashReported then CrashInjected(crash.value) else Killed
                 case SessionChanged =>
                   end == End(p.disk, if it.cancel == CancelledReducing then Cancelled
                                      else if JoinOutcome(it.joins, p.cp.step).JoinFailed? then NotJoined
                                      else SaveFailed)
                 case AttemptFailed => end == End(p.disk, Cancelled)
  {
    SameRecordSameCrash(it.control, rank, p.cp, p.cp.(step := p.cp.step + 1));
  }

  /** At a loop head: a step at or past the last is on disk, and a process whose file was not past the last is not. */
  ghost predicate LastStepSaved(total: int, p: Process, loaded: int) {
    && p.disk.Saved?
    && (p.cp.step >= total ==> p.disk.checkpoint.step == p.cp.step)
    && (loaded <= total ==> p.cp.step <= total)
  }

  lemma IterateSavesLast(rank: int, total: int, p: Process, it: Iteration, loaded: int)
    requires total > 0 && LastStepSaved(total, p, loaded) && p.cp.step < total
    ensures match Iterate(rank, total, p, it)
            case Continue(next) => LastStepSaved(total, next, loaded)
            case Stop(end) => end.exit != Completed
  {
    JoinOnlyLowers(it.joins, p.cp.step);
  }

  lemma {:induction false} LoopSavesLast(rank: int, total: int, p: Process, its: seq<Iteration>, loaded: int)
    requires total > 0 && LastStepSaved(total, p, loaded)
    ensures var end := LoopFrom(rank, total, p, its);
            end.exit == Completed ==>
              && end.disk.Saved? && end.disk.checkpoint.step >= total
              && (loaded <= total ==> end.disk.checkpoint.step == total)
    decreases |its|
  {
    if p.cp.step < total && its != [] {
      IterateSavesLast(rank, total, p, its[0], loaded);
      match Iterate(rank, total, p, its[0])
      case Continue(next) => LoopSavesLast(rank, total, next, its[1..], loaded);
      case Stop(end) =>
    }
  }

  /** A process that completes its steps has the last one on disk, and exactly that one unless its file was past it. */
  lemma CompletedIsSaved(rank: int, total: int, disk: Disk, start: Start, its: seq<Iteration>)
    requires total > 0 && Life(rank, total, disk, start, its).exit == Completed
    ensures var left := Life(rank, total, disk, start, its).disk;
            && left.Saved? && left.checkpoint.step >= total
            && (disk.Missing? || (disk.Saved? && disk.checkpoint.step <= total) ==> left.checkpoint.step == total)
  {
    var loaded := Load(disk).value.step;
    JoinOnlyLowers(start.joins, loaded);
    LoopSavesLast(rank, total, Begin(disk, start).process, its, loaded);
  }

  /** A turn in which nothing goes wrong for good: no cancellation, no save error, no changed session, no crash. */
  ghost predicate Undisturbed(rank: int, it: Iteration) {
    && it.cancel == NotCancelled && it.save == NoFault && !ReduceOutcome(it.attempts, MAX_ATTEMPTS).SessionChanged?
    && (it.control.crash.Some? ==> it.control.crash.value.rank != rank)
  }

  /** The turns that end with an average. */
  function Averages(its: seq<Iteration>): nat {
    if its == [] then 0
    else (if ReduceOutcome(its[0].attempts, MAX_ATTEMPTS).Averaged? then 1 else 0) + Averages(its[1..])
  }

  /** Failed reductions only delay: an undisturbed process completes exactly when as many turns end with an average as
      steps are left, and otherwise goes on until it is killed. */
  lemma {:induction false} UndisturbedCompletes(rank: int, total: int, p: Process, its: seq<Iteration>)
    requires total > 0 && forall i | 0 <= i < |its| :: Undisturbed(rank, its[i])
    ensures LoopFrom(rank, total, p, its).exit == if p.cp.step + Averages(its) >= total then Completed else Killed
    decreases |its|
  {
    if p.cp.step < total && its != [] {
      assert Undisturbed(rank, its[0]);
      StopsExactly(rank, total, p, its[0]);
      ContinuesWith(rank, total, p, its[0]);
      UndisturbedCompletes(rank, total, Iterate(rank, total, p, its[0]).process, its[1..]);
    }
  }

  // ---------------------------------------------------------------------------------------------
  // Counters
  // ---------------------------------------------------------------------------------------------

  /** At a loop head: samples count 32 per loaded step and per successful reduction and never fall below the step gauge,
      the checkpoint gauge is the step on disk and never ahead of the step gauge, and memory and disk record the same
      crashes and restarts. */
  ghost predicate Counted(p: Process, loaded: int) {
    && p.metrics.samples == 32 * (loaded + p.reductions)
    && p.metrics.step == p.cp.step && 0 <= 32 * p.metrics.step <= p.metrics.samples
    && p.disk.Saved? && p.metrics.checkpoint == p.disk.checkpoint.step && 0 <= p.metrics.checkpoint <= p.metrics.step
    && p.disk.checkpoint.applied == p.cp.applied && p.disk.checkpoint.restarts == p.cp.restarts == p.metrics.restarts
    && p.metrics.up && p.session != ""
  }

  lemma BeginCounted(disk: Disk, start: Start)
    requires Begin(disk, start).Continue?
    ensures Load(disk).Some? && Counted(Begin(disk, start).process, Load(disk).value.step)
    ensures Begin(disk, start).process.reductions == 0
    ensures Begin(disk, start).process.cp.restarts == Load(disk).value.restarts + 1
  {
    JoinOnlyLowers(start.joins, Load(disk).value.step);
  }

  lemma IterateCounted(rank: int, total: int, p: Process, it: Iteration, loaded: int)
    requires Counted(p, loaded) && Iterate(rank, total, p, it).Continue?
    ensures Counted(Iterate(rank, total, p, it).process, loaded)
  {
    JoinOnlyLowers(it.joins, p.cp.step);
  }

  /** The process at the head of the loop after `n` turns, if it gets there. */
  function HeadAfter(rank: int, total: int, disk: Disk, start: Start, its: seq<Iteration>, n: nat): Option<Process>
    requires n <= |its|
  {
    if n == 0 then
      match Begin(disk, start)
      case Continue(p) => Some(p)
      case Stop(_) => None
    else
      match HeadAfter(rank, total, disk, start, its, n - 1)
      case None => None
      case Some(p) =>
        if total != 0 && p.cp.step + 1 > total then None
        else match Iterate(rank, total, p, its[n - 1])
             case Continue(next) => Some(next)
             case Stop(_) => None
  }

  /** Conservation of the counters, at every loop head of every process, through any number of rollbacks. */
  lemma {:induction false} CountersConserved(rank: int, total: int, disk: Disk, start: Start, its: seq<Iteration>, n: nat)
    requires n <= |its| && HeadAfter(rank, total, disk, start, its, n).Some?
    ensures Load(disk).Some? && Counted(HeadAfter(rank, total, disk, start, its, n).value, Load(disk).value.step)
  {
    if n == 0 {
      BeginCounted(disk, start);
    } else {
      CountersConserved(rank, total, disk, start, its, n - 1);
      IterateCounted(rank, total, HeadAfter(rank, total, disk, start, its, n - 1).value, its[n - 1], Load(disk).value.step);
    }
  }

  // ---------------------------------------------------------------------------------------------
  // One-shot crashes
  // ---------------------------------------------------------------------------------------------

  predicate AppliedOn(disk: Disk, id: string) {
    disk.Saved? && Applied(disk.checkpoint, id)
  }

  /** A process never forgets a recorded crash, and it ends by an injected crash only if that crash was not recorded
      when it started and is recorded when it ends. */
  ghost predicate RecordsCrashes(before: Disk, end: End) {
    && (forall id :: AppliedOn(before, id) ==> AppliedOn(end.disk, id))
    && (end.exit.CrashInjected? ==> !AppliedOn(before, end.exit.id) && AppliedOn(end.disk, end.exit.id))
  }

  lemma {:induction false} LoopRecordsCrashes(rank: int, total: int, p: Process, its: seq<Iteration>)
    requires p.disk.Saved? && p.disk.checkpoint.applied == p.cp.applied
    ensures RecordsCrashes(p.disk, LoopFrom(rank, total, p, its))
    decreases |its|
  {
    if !(total != 0 && p.cp.step + 1 > total) && its != [] {
      match Iterate(rank, total, p, its[0])
      case Continue(next) => LoopRecordsCrashes(rank, total, next, its[1..]);
      case Stop(end) =>
    }
  }

  lemma LifeRecordsCrashes(rank: int, total: int, disk: Disk, start: Start, its: seq<Iteration>)
    ensures RecordsCrashes(disk, Life(rank, total, disk, start, its))
  {
    match Begin(disk, start)
    case Continue(p) => LoopRecordsCrashes(rank, total, p, its);
    case Stop(end) =>
  }

  datatype Script = Script(start: Start, its: seq<Iteration>)

  /** The ids of the injected crashes by which successive processes on one checkpoint file end. */
  function CrashesOf(rank: int, total: int, disk: Disk, lives: seq<Script>): seq<string>
    decreases |lives|
  {
    if lives == [] then []
    else
      var end := Life(rank, total, disk, lives[0].start, lives[0].its);
      (if end.exit.CrashInjected? then [end.exit.id] else [])
      + CrashesOf(rank, total, end.disk, lives[1..])
  }

  ghost predicate NoneApplied(disk: Disk, ids: seq<string>) {
    forall i | 0 <= i < |ids| :: !AppliedOn(disk, ids[i])
  }

  ghost predicate Distinct(ids: seq<string>) {
    forall i, j | 0 <= i < j < |ids| :: ids[i] != ids[j]
  }

  /** One-shot: over any number of restarts on one checkpoint file, a worker ends by an injected crash at most once per
      crash id, and never for an id already on the file. */
  lemma {:induction false} CrashesOnce(rank: int, total: int, disk: Disk, lives: seq<Script>)
    ensures NoneApplied(disk, CrashesOf(rank, total, disk, lives)) && Distinct(CrashesOf(rank, total, disk, lives))
    decreases |lives|
  {
    if lives != [] {
      var end := Life(rank, total, disk, lives[0].start, lives[0].its);
      LifeRecordsCrashes(rank, total, disk, lives[0].start, lives[0].its);
      CrashesOnce(rank, total, end.disk, lives[1..]);
      var ids := CrashesOf(rank, total, disk, lives);
      var rest := CrashesOf(rank, total, end.disk, lives[1..]);
      forall i | 0 <= i < |rest|
        ensures !AppliedOn(disk, rest[i])
        ensures end.exit.CrashInjected? ==> rest[i] != end.exit.id
      {
        var id := rest[i];
        assert !AppliedOn(end.disk, id);
        assert AppliedOn(disk, id) ==> AppliedOn(end.disk, id);
      }
      if end.exit.CrashInjected? {
        assert ids == [end.exit.id] + rest;
      } else {
        assert ids == rest;
      }
    }
  }

  /** What makes a worker crash after reading a written document: its rank, a token, and that the document's generation is
      not yet on its file. The token itself plays no part. */
  lemma WrittenCrashIsPending(state: C.ControlState, parse: C.Parser, raw: C.Json -> string, rank: int, cp: Checkpoint)
    requires C.Fits(state) && C.ReadControl(C.Document(state), parse, raw).Ok?
    ensures PendingCrash(C.ReadControl(C.Document(state), parse, raw).value, rank, cp) ==
            if state.crashRank == Some(rank) && state.crashToken != "" && !Applied(cp, IntText(state.generation))
            then Some(IntText(state.generation)) else None
  {
    C.ReadsWrittenCrash(state, parse, raw);
    assert IntText(state.generation) != "";
  }

  /** The same for a crash in a nested document: it must be enabled, and is named by its generation or, without one, by its
      token. */
  lemma NestedCrashIsPending(c: C.CrashControl, parse: C.Parser, raw: C.Json -> string, rank: int, cp: Checkpoint)
    requires C.InRange64(c.rank) && 0 <= c.rank
    ensures var crash := C.Object(map[C.Rank := C.Int(c.rank), C.Enabled := C.Bool(c.enabled),
                                      C.Generation := C.String(c.generation), C.Token := C.String(c.token)]);
            var read := C.ReadControl(C.Object(map[C.NestedCrash := crash]), parse, raw);
            var id := if c.generation != "" then c.generation else c.token;
            && read.Ok?
            && (PendingCrash(read.value, rank, cp) ==
                if c.enabled && c.rank == rank && id != "" && !Applied(cp, id) then Some(id) else None)
  {
    var crash := C.Object(map[C.Rank := C.Int(c.rank), C.Enabled := C.Bool(c.enabled),
                              C.Generation := C.String(c.generation), C.Token := C.String(c.token)]);
    var f := map[C.NestedCrash := crash];
    assert C.NestedCrash in f && f.Keys == {C.NestedCrash};
    F.NestedIsRead(f, map[], 0, c, parse, raw);
  }

  /** A process that joins, reduces one step and finds a control. */
  function OneStep(control: C.Control): Script {
    Script(Start(NoFault, [Replied("session", 0)], NoFault),
           [Iteration(control, [Averaged(0.0)], [], NoFault, false, NoFault, CrashReported, NotCancelled)])
  }

  lemma OneStepCrashes(rank: int, disk: Disk, control: C.Control, id: string)
    requires Load(disk).Some? && PendingCrash(control, rank, Load(disk).value) == Some(id)
    ensures var end := Life(rank, 0, disk, OneStep(control).start, OneStep(control).its);
            && end.exit == CrashInjected(id) && end.disk.Saved? && Load(end.disk).Some?
            && end.disk.checkpoint.applied == Load(disk).value.applied[id := true]
  {
    var loaded := Load(disk).value;
    var s := OneStep(control);
    var cp := loaded.(restarts := loaded.restarts + 1, step := 0);
    assert JoinOutcome(s.start.joins, loaded.step) == JoinedAt("session", 0);
    assert Begin(disk, s.start).Continue? && Begin(disk, s.start).process.cp == cp;
    assert ReduceOutcome(s.its[0].attempts, MAX_ATTEMPTS) == Averaged(0.0);
    assert PendingCrash(control, rank, cp.(step := 1)) == Some(id);
  }

  lemma TwoControlsCrashTwice(rank: int, first: C.Control, second: C.Control, a: string, b: string)
    requires PendingCrash(first, rank, Checkpoint(0, 0, map[])) == Some(a)
    requires PendingCrash(second, rank, Checkpoint(0, 0, map[a := true])) == Some(b)
    ensures CrashesOf(rank, 0, Missing, [OneStep(first), OneStep(second)]) == [a, b]
  {
    OneStepCrashes(rank, Missing, first, a);
    var end := Life(rank, 0, Missing, OneStep(first).start, OneStep(first).its);
    SameRecordSameCrash(second, rank, end.disk.checkpoint, Checkpoint(0, 0, map[a := true]));
    OneStepCrashes(rank, end.disk, second, b);
    TwoLives(rank, OneStep(first), OneStep(second), a, b);
  }

  /** Of a checkpoint only its recorded crashes matter. */
  lemma SameRecordSameCrash(control: C.Control, rank: int, a: Checkpoint, b: Checkpoint)
    requires a.applied == b.applied
    ensures PendingCrash(control, rank, a) == PendingCrash(control, rank, b)
  {
  }

  lemma TwoLives(rank: int, first: Script, second: Script, a: string, b: string)
    requires var end := Life(rank, 0, Missing, first.start, first.its);
             && end.exit == CrashInjected(a)
             && Life(rank, 0, end.disk, second.start, second.its).exit == CrashInjected(b)
    ensures CrashesOf(rank, 0, Missing, [first, second]) == [a, b]
  {
    var end := Life(rank, 0, Missing, first.start, first.its);
    var last := Life(rank, 0, end.disk, second.start, second.its);
    assert [first, second][1..] == [second] && [second][1..] == [];
    assert CrashesOf(rank, 0, last.disk, []) == [];
    assert CrashesOf(rank, 0, end.disk, [second]) == [b];
  }

  lemma InjectedCrashesTwice(rank: int, token: string, generation: int)
    requires C.InRange64(generation) && token != ""
    ensures var next := C.Wrap64(generation + 1);
            CrashesOf(rank, 0, Missing, [OneStep(C.InjectedControl(rank, token, generation)),
                                         OneStep(C.InjectedControl(rank, token, next))])
            == [IntText(generation), IntText(next)]
  {
    var next := C.Wrap64(generation + 1);
    C.NextGenerationText(generation);
    C.NextGenerationText(next);
    TwoControlsCrashTwice(rank, C.InjectedControl(rank, token, generation), C.InjectedControl(rank, token, next),
                          IntText(generation), IntText(next));
  }

  /** One token, two crashes: reading the same injection in two successive generations of a document, a worker ends by it
      twice, under different ids. */
  lemma OneTokenCrashesTwice(rank: int, token: string, generation: int, parse: C.Parser, raw: C.Json -> string)
    requires 0 <= rank && C.InRange64(rank) && C.InRange64(generation) && token != ""
    ensures var state := C.Injected(rank, token, generation);
            var first := C.ReadControl(C.Document(state), parse, raw);
            var second := C.ReadControl(C.Document(C.Mutated(state)), parse, raw);
            && first.Ok? && second.Ok? && C.Mutated(state).crashToken == state.crashToken == token
            && CrashesOf(rank, 0, Missing, [OneStep(first.value), OneStep(second.value)])
               == [IntText(generation), IntText(C.Wrap64(generation + 1))]
            && IntText(generation) != IntText(C.Wrap64(generation + 1))
  {
    var next := C.Wrap64(generation + 1);
    C.NextGenerationText(generation);
    assert C.Mutated(C.Injected(rank, token, generation)) == C.Injected(rank, token, next);
    C.InjectedIsRead(rank, token, generation, parse, raw);
    C.InjectedIsRead(rank, token, next, parse, raw);
    InjectedCrashesTwice(rank, token, generation);
  }

  // ---------------------------------------------------------------------------------------------
  // The training job's view of a worker
  // ---------------------------------------------------------------------------------------------

  /** The node of the training job that a process at a loop head is. */
  ghost predicate Matches(p: Process, node: Cluster.Node) {
    && node.step == p.cp.step && p.disk.Saved? && node.disk == p.disk.checkpoint.step
    && node.mode == Cluster.Training(p.session)
  }

  /** What a turn of the loop does to the job's node: accept an average, rejoin at a step no later than its own, or
      nothing. */
  lemma IterateIsAnAction(rank: int, total: int, p: Process, it: Iteration, node: Cluster.Node)
    requires Matches(p, node) && p.cp.step >= 0 && Iterate(rank, total, p, it).Continue?
    ensures var next := Iterate(rank, total, p, it).process;
            match ReduceOutcome(it.attempts, MAX_ATTEMPTS)
            case Averaged(average) =>
              Matches(next, Cluster.Advanced(node, average, CheckpointDue(total, p.cp.step + 1, it)))
            case SessionChanged =>
              && 0 <= next.cp.step <= node.step
              && Replied(next.session, next.cp.step) in it.joins
              && Matches(next, Cluster.Resumed(node, next.session, next.cp.step))
            case AttemptFailed => Matches(next, node)
  {
    JoinOnlyLowers(it.joins, p.cp.step);
  }

  /** A process that ends leaves the step on disk as it was, or at the step of an average it had just accepted. */
  lemma StopLeavesDisk(rank: int, total: int, p: Process, it: Iteration, node: Cluster.Node)
    requires Matches(p, node) && Iterate(rank, total, p, it).Stop?
    ensures var disk := Iterate(rank, total, p, it).end.disk;
            && disk.Saved?
            && (disk.checkpoint.step == node.disk
                || (ReduceOutcome(it.attempts, MAX_ATTEMPTS).Averaged?
                    && disk.checkpoint.step
                       == Cluster.Advanced(node, ReduceOutcome(it.attempts, MAX_ATTEMPTS).average, true).disk))
  {
  }

  /** A new process resumes as the job's restarted node does, from its file or, if that is missing, from nothing, and
      trains once its join is answered. */
  lemma BeginIsARestart(disk: Disk, start: Start, node: Cluster.Node, rank: int, incarnation: string, number: nat)
    requires Begin(disk, start).Continue? && (disk.Saved? ==> node.disk == disk.checkpoint.step)
    ensures var p := Begin(disk, start).process;
            var restarted := Cluster.Restarted(node, rank, incarnation, number, disk.Saved?);
            && 0 <= p.cp.step <= restarted.step && Replied(p.session, p.cp.step) in start.joins
            && Matches(p, Cluster.Resumed(restarted, p.session, p.cp.step))
  {
    JoinOnlyLowers(start.joins, Load(disk).value.step);
  }

  /** The reply to a join call that the job's coordinator has put in a session. */
  ghost predicate Answered(u: Cluster.System, call: Cluster.JoinMessage, session: string, step: int) {
    (call, session) in u.joinWaits && session in u.started && u.started[session] == step
  }

  /** A new process is two of the job's actions, each enabled when it is taken: the restart, and once the join call is
      answered in some later state, the accepted join. */
  lemma BeginIsTwoActions(disk: Disk, start: Start, rank: int, incarnation: string, number: nat,
                          s: Cluster.System, u: Cluster.System)
    requires Begin(disk, start).Continue? && rank in s.nodes && (disk.Saved? ==> s.nodes[rank].disk == disk.checkpoint.step)
    requires incarnation != "" && incarnation !in s.incarnations
    requires var restarted := Cluster.Restarted(s.nodes[rank], rank, incarnation, number, disk.Saved?);
             var p := Begin(disk, start).process;
             && rank in u.nodes && u.nodes[rank] == restarted
             && Answered(u, restarted.mode.call, p.session, p.cp.step)
    ensures var crash := Cluster.Crash(rank, incarnation, number, disk.Saved?);
            Cluster.Enabled(s, crash) && Cluster.Apply(s, crash).nodes[rank] == u.nodes[rank]
    ensures var p := Begin(disk, start).process;
            var accept := Cluster.AcceptJoin(rank, p.session);
            Cluster.Enabled(u, accept) && Matches(p, Cluster.Apply(u, accept).nodes[rank])
  {
    BeginIsARestart(disk, start, s.nodes[rank], rank, incarnation, number);
  }

  /** A turn that ends with an average is the job's action of accepting it, which is enabled when the reply was given; a
      turn that ends with neither an average nor a changed session leaves the node alone. */
  lemma TurnIsAnAction(rank: int, total: int, p: Process, it: Iteration, s: Cluster.System)
    requires rank in s.nodes && Matches(p, s.nodes[rank]) && p.cp.step >= 0 && Iterate(rank, total, p, it).Continue?
    ensures var next := Iterate(rank, total, p, it).process;
            match ReduceOutcome(it.attempts, MAX_ATTEMPTS)
            case Averaged(average) =>
              var accept := Cluster.AcceptAverage(rank, average, CheckpointDue(total, p.cp.step + 1, it));
              Cluster.Averaged(Cluster.CurrentRequest(s, rank), average) in s.answers ==>
                Cluster.Enabled(s, accept) && Matches(next, Cluster.Apply(s, accept).nodes[rank])
            case SessionChanged => true
            case AttemptFailed => Matches(next, s.nodes[rank])
  {
    IterateIsAnAction(rank, total, p, it, s.nodes[rank]);
  }

  /** A turn that ends with a changed session is two of the job's actions, each enabled when it is taken: leaving the
      session, and once the join call is answered in some later state, the accepted join. */
  lemma RejoinIsTwoActions(rank: int, total: int, p: Process, it: Iteration, number: nat,
                           s: Cluster.System, u: Cluster.System)
    requires rank in s.nodes && Matches(p, s.nodes[rank]) && p.cp.step >= 0 && Iterate(rank, total, p, it).Continue?
    requires ReduceOutcome(it.attempts, MAX_ATTEMPTS).SessionChanged?
    requires Cluster.Changed(Cluster.CurrentRequest(s, rank)) in s.answers
    requires var call := Cluster.JoinMessage(rank, s.nodes[rank].step, s.nodes[rank].incarnation, number);
             var next := Iterate(rank, total, p, it).process;
             && call !in s.joins && rank in u.nodes && u.nodes[rank] == s.nodes[rank].(mode := Cluster.Joining(call))
             && Answered(u, call, next.session, next.cp.step)
    ensures var leave := Cluster.AcceptChanged(rank, number);
            Cluster.Enabled(s, leave) && Cluster.Apply(s, leave).nodes[rank] == u.nodes[rank]
    ensures var next := Iterate(rank, total, p, it).process;
            var accept := Cluster.AcceptJoin(rank, next.session);
            Cluster.Enabled(u, accept) && Matches(next, Cluster.Apply(u, accept).nodes[rank])
  {
    IterateIsAnAction(rank, total, p, it, s.nodes[rank]);
  }

  // ---------------------------------------------------------------------------------------------
  // The worker object
  // ---------------------------------------------------------------------------------------------

  class Worker {
    const rank: int
    const total: int
    const file: CheckpointFile
    var cp: Checkpoint
    var session: string
    var metrics: Metrics

    constructor (rank: int, total: int, file: CheckpointFile)
      ensures this.rank == rank && this.total == total && this.file == file
    {
      this.rank := rank;
      this.total := total;
      this.file := file;
      cp := Checkpoint(0, 0, map[]);
      session := "";
      metrics := Metrics(0, 0, 0, 0, 0, false);
    }

    function View(reductions: nat): Process
      reads this, file
    {
      Process(cp, file.disk, session, metrics, reductions)
    }

    /** Joins the training session and resumes at the step it names. */
    method Join(joins: seq<JoinAttempt>, save: Fault, ghost reductions: nat) returns (failure: Option<Exit>)
      modifies this, file
      ensures match Rejoin(old(View(reductions)).(metrics := old(metrics).(up := false)), joins, save)
              case Continue(p) => failure == None && View(reductions) == p
              case Stop(end) => failure == Some(end.exit) && file.disk == end.disk
    {
      metrics := metrics.(up := false);
      var joined := JoinWithRetry(joins, cp.step);
      if joined.JoinFailed? {
        return Some(NotJoined);
      }
      cp := cp.(step := joined.step);
      var ok := file.Save(cp, save);
      if !ok {
        return Some(SaveFailed);
      }
      session := joined.session;
      metrics := metrics.(step := cp.step, checkpoint := cp.step, up := true);
      return None;
    }

    /** Enters a finished step in memory, and on disk if a checkpoint is due; then injects a pending crash. */
    method Advance(it: Iteration, ghost reductions: nat) returns (failure: Option<Exit>)
      modifies this, file
      ensures match Reduced(rank, total, old(View(reductions)), it)
              case Continue(p) => failure == None && View(reductions + 1) == p
              case Stop(end) => failure == Some(end.exit) && file.disk == end.disk
    {
      var step := cp.step + 1;
      metrics := metrics.(step := step, samples := metrics.samples + 32);
      cp := cp.(step := step);
      if CheckpointDue(total, step, it) {
        var ok := file.Save(cp, it.save);
        if !ok {
          return Some(SaveFailed);
        }
        metrics := metrics.(checkpoint := cp.step);
      }
      var pending := PendingCrash(it.control, rank, cp);
      if pending.None? {
        return None;
      }
      cp := cp.(applied := cp.applied[pending.value := true]);
      var ok := file.Save(cp, if it.crashSave.CrashSaveFails? then WriteFails else NoFault);
      if !ok {
        return Some(SaveFailed);
      }
      return Some(if it.crashSave.KilledBeforeReport? then Killed else CrashInjected(pending.value));
    }

    /** Loads the checkpoint, counts the restart on disk and joins. */
    method Open(start: Start) returns (failure: Option<Exit>)
      modifies this, file
      ensures match Begin(old(file.disk), start)
              case Continue(p) => failure == None && View(0) == p
              case Stop(end) => failure == Some(end.exit) && file.disk == end.disk
    {
      var loaded := Load(file.disk);
      if loaded.None? {
        return Some(LoadFailed);
      }
      cp := loaded.value.(restarts := loaded.value.restarts + 1);
      var ok := file.Save(cp, start.save);
      if !ok {
        return Some(SaveFailed);
      }
      session := "";
      metrics := Metrics(cp.step, cp.step * 32, cp.step, cp.restarts, 0, false);
      failure := Join(start.joins, start.joinSave, 0);
    }

    /** One turn of the training loop. */
    method Turn(it: Iteration, ghost reductions: nat) returns (failure: Option<Exit>)
      modifies this, file
      ensures match Iterate(rank, total, old(View(reductions)), it)
              case Continue(p) => failure == None && View(p.reductions) == p
              case Stop(end) => failure == Some(end.exit) && file.disk == end.disk
    {
      if it.cancel == CancelledWaiting {
        return Some(Cancelled);
      }
      var result := ReduceWithRetry(it.attempts);
      if result.Averaged? {
        failure := Advance(it, reductions);
        return;
      }
      metrics := metrics.(errors := metrics.errors + 1);
      if it.cancel == CancelledReducing {
        return Some(Cancelled);
      }
      if result.SessionChanged? {
        failure := Join(it.joins, it.joinSave, reductions);
        return;
      }
      return if it.cancel == CancelledBackingOff then Some(Cancelled) else None;
    }

    /** A process from start to end: it trains until the script, the steps or an error end it. The next step to
        reduce is always the one after the checkpoint in memory. */
    method Run(start: Start, its: seq<Iteration>) returns (exit: Exit)
      modifies this, file
      ensures Life(rank, total, old(file.disk), start, its) == End(file.disk, exit)
    {
      var failure := Open(start);
      if failure.Some? {
        return failure.value;
      }
      ghost var p := View(0);
      var i := 0;
      while total == 0 || cp.step + 1 <= total
        invariant 0 <= i <= |its| && p == View(p.reductions)
        invariant Life(rank, total, old(file.disk), start, its) == LoopFrom(rank, total, p, its[i..])
        decreases |its| - i
      {
        if i == |its| {
          return Killed;
        }
        assert its[i..][1..] == its[i + 1..];
        ghost var outcome := Iterate(rank, total, p, its[i]);
        failure := Turn(its[i], p.reductions);
        if failure.Some? {
          return failure.value;
        }
        p := outcome.process;
        i := i + 1;
      }
      return Completed;
    }
  }
}
