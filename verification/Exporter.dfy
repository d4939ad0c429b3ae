/** The exporter's view of the applied scenario: applied once, refreshed lazily by every observer. Instants are
    nanoseconds from the zero instant, and zero stands for an unset one. */
module Exporters {
  import opened Prelude
  import opened Text
  import opened Scenarios

  /** One GPU's reading; the GPU is the node's name and an index. */
  datatype Reading = Reading(
    node: string,
    index: nat,
    utilizationPercent: real,
    memoryUsedBytes: int,
    memoryTotalBytes: int,
    temperatureCelsius: real,
    powerWatts: real,
    xidCode: int,
    health: int,
    eccDbeTotal: int,
    powerViolationTotal: int,
    pcieReplayTotal: int,
    throttleActive: int,
    throttleReason: string,
    reserved: int)

  datatype FabricReading = FabricReading(
    portUp: int,
    state: string,
    physicalState: string,
    linkRateGbps: real,
    txBytesTotal: int,
    rxBytesTotal: int,
    symbolErrorsTotal: int,
    linkErrorRecoveryTotal: int,
    linkDownedTotal: int,
    xmitDiscardsTotal: int,
    xmitWaitTotal: int,
    rdmaRetriesTotal: int,
    rdmaTimeoutsTotal: int,
    fabricDelaySeconds: real)

  const DEFAULT_GPU_COUNT := 8
  const DEFAULT_MEMORY_TOTAL := 16 * 1024 * 1024 * 1024

  /** The built-in baseline scenario. */
  const NORMAL := Scenario("gpu-lab.io/v1alpha1", "Scenario", "normal", NoDuration, Targets(map[], []), None,
                           NO_METRICS, [])

  // ---------------------------------------------------------------------------------------------
  // Who is targeted
  // ---------------------------------------------------------------------------------------------

  function SyntheticNodeId(node: string): string {
    if "gpu-node-" <= node then node
    else if node == "gpu-lab-worker" then "gpu-node-01"
    else if node == "gpu-lab-worker2" then "gpu-node-02"
    else if node == "gpu-lab-worker3" then "gpu-node-03"
    else node
  }

  /** A label the node does not have reads as empty. */
  function LabelOf(node: string, key: string): string {
    if key == "gpu.lab/type" then "fake"
    else if key == "gpu.lab/node-id" then SyntheticNodeId(node)
    else if key == "kubernetes.io/hostname" then node
    else ""
  }

  predicate SelectorMatches(node: string, selector: map<string, string>) {
    forall key | key in selector :: LabelOf(node, key) == selector[key]
  }

  predicate Targeted(index: int, indices: seq<int>) {
    indices == [] || index in indices
  }

  /** How many of the GPUs below `n` are targeted. */
  function TargetedBelow(indices: seq<int>, n: nat): (r: nat)
    ensures r <= n
  {
    if n == 0 then 0 else TargetedBelow(indices, n - 1) + if Targeted(n - 1, indices) then 1 else 0
  }

  /** The first action of a type. */
  function FindAction(actions: seq<Action>, kind: string): Option<Action> {
    if actions == [] then None
    else if actions[0].kind == kind then Some(actions[0])
    else FindAction(actions[1..], kind)
  }

  /** How many GPUs a scenario reserves on a node. */
  function AllocationCount(node: string, s: Scenario): int {
    var workload := FindAction(s.actions, "create_gpu_workload");
    if s.metrics.gpuAllocatedCount.None? || (workload.Some? && !SelectorMatches(node, workload.value.nodeSelector)) then 0
    else s.metrics.gpuAllocatedCount.value
  }

  function Fault(actions: seq<Action>): string {
    if FindAction(actions, "exporter_fault").Some? then "unavailable" else ""
  }

  // ---------------------------------------------------------------------------------------------
  // Readings
  // ---------------------------------------------------------------------------------------------

  function Or<T>(value: Option<T>, fallback: T): T {
    if value.Some? then value.value else fallback
  }

  function OrText(value: string, fallback: string): string {
    if value != "" then value else fallback
  }

  /** Truncation towards zero. */
  function Truncated(x: real): int {
    if x < 0.0 then -((-x).Floor) else x.Floor
  }

  function MemoryUsed(total: int, percent: real): int {
    Truncated(total as real * percent / 100.0)
  }

  function MakeReading(node: string, index: nat, m: Metrics, reserved: int): Reading {
    var total := Or(m.gpuMemoryTotalBytes, DEFAULT_MEMORY_TOTAL);
    Reading(node, index, Or(m.gpuUtilizationPercent, 15.0),
            MemoryUsed(total, Or(m.gpuMemoryUsedPercent, 20.0)), total,
            Or(m.temperatureCelsius, 45.0), Or(m.powerWatts, 80.0), Or(m.xidCode, 0), Or(m.health, 1),
            Or(m.eccDbeTotal, 0), Or(m.powerViolationTotal, 0), Or(m.pcieReplayTotal, 0), Or(m.throttleActive, 0),
            OrText(m.throttleReason, "none"), reserved)
  }

  /** A targeted GPU shows the scenario's metrics, any other the baseline; the first targeted ones are reserved. */
  function ReadingAt(node: string, m: Metrics, indices: seq<int>, count: int, i: nat): Reading {
    MakeReading(node, i, if Targeted(i, indices) then m else NORMAL.metrics,
                if Targeted(i, indices) && TargetedBelow(indices, i) < count then 1 else 0)
  }

  function Readings(node: string, gpuCount: nat, s: Scenario): (r: seq<Reading>)
    ensures |r| == gpuCount
    ensures forall i | 0 <= i < gpuCount ::
              r[i] == ReadingAt(node, s.metrics, s.targets.gpuIndices, AllocationCount(node, s), i)
  {
    seq(gpuCount, i requires 0 <= i =>
      ReadingAt(node, s.metrics, s.targets.gpuIndices, AllocationCount(node, s), i))
  }

  method BuildReadings(node: string, gpuCount: nat, s: Scenario) returns (readings: seq<Reading>)
    ensures readings == Readings(node, gpuCount, s)
  {
    readings := [];
    var count := 0;
    if s.metrics.gpuAllocatedCount.Some? {
      count := s.metrics.gpuAllocatedCount.value;
      var workload := FindAction(s.actions, "create_gpu_workload");
      if workload.Some? && !SelectorMatches(node, workload.value.nodeSelector) {
        count := 0;
      }
    }
    readings := BuildEach(node, gpuCount, s.metrics, s.targets.gpuIndices, count);
    assert count == AllocationCount(node, s);
  }

  /** The loop over the GPUs, with its running total of reserved ones. */
  method BuildEach(node: string, gpuCount: nat, m: Metrics, indices: seq<int>, count: int)
    returns (readings: seq<Reading>)
    ensures |readings| == gpuCount
    ensures forall k | 0 <= k < gpuCount :: readings[k] == ReadingAt(node, m, indices, count, k)
  {
    readings := [];
    var total := 0;
    for i := 0 to gpuCount
      invariant |readings| == i
      invariant total == Min(TargetedBelow(indices, i), Max(count, 0))
      invariant forall k | 0 <= k < i :: readings[k] == ReadingAt(node, m, indices, count, k)
    {
      var targeted := Targeted(i, indices);
      var reserved := 0;
      if targeted && total < count {
        reserved := 1;
        total := total + 1;
      }
      readings := readings + [MakeReading(node, i, if targeted then m else NORMAL.metrics, reserved)];
    }
  }

  function Allocated(readings: seq<Reading>): int {
    if readings == [] then 0 else Allocated(readings[..|readings| - 1]) + readings[|readings| - 1].reserved
  }

  /** A node reserves as many GPUs as the scenario asks for, limited by the GPUs it targets. */
  lemma {:induction false} AllocatedTotal(node: string, gpuCount: nat, s: Scenario)
    ensures Allocated(Readings(node, gpuCount, s)) ==
            Min(Max(AllocationCount(node, s), 0), TargetedBelow(s.targets.gpuIndices, gpuCount))
  {
    if gpuCount > 0 {
      var all := Readings(node, gpuCount, s);
      assert all[..gpuCount - 1] == Readings(node, gpuCount - 1, s);
      AllocatedTotal(node, gpuCount - 1, s);
    }
  }

  /** Targeting GPUs changes no other GPU: it reads as under the baseline. */
  lemma UntargetedReadNormal(node: string, gpuCount: nat, s: Scenario, i: nat)
    requires i < gpuCount && !Targeted(i, s.targets.gpuIndices)
    ensures Readings(node, gpuCount, s)[i] == Readings(node, gpuCount, NORMAL)[i]
  {
    assert AllocationCount(node, NORMAL) == 0;
  }

  /** Under the baseline every GPU reads the documented defaults, with a fifth of its memory in use. */
  lemma BaselineReads(node: string, gpuCount: nat, i: nat)
    requires i < gpuCount
    ensures Readings(node, gpuCount, NORMAL)[i] ==
            Reading(node, i, 15.0, 3_435_973_836, 17_179_869_184, 45.0, 80.0, 0, 1, 0, 0, 0, 0, "none", 0)
  {
    assert AllocationCount(node, NORMAL) == 0;
    assert MemoryUsed(17_179_869_184, 20.0) == 3_435_973_836 by {
      assert 17_179_869_184 as real * 20.0 / 100.0 == 3_435_973_836.8;
    }
  }

  /** A validated scenario never reports more memory in use than there is. */
  lemma MemoryFits(m: Metrics)
    requires ValidMetrics(m)
    ensures var total := Or(m.gpuMemoryTotalBytes, DEFAULT_MEMORY_TOTAL);
            0 <= MemoryUsed(total, Or(m.gpuMemoryUsedPercent, 20.0)) <= total
  {
    UsedFits(Or(m.gpuMemoryTotalBytes, DEFAULT_MEMORY_TOTAL), Or(m.gpuMemoryUsedPercent, 20.0));
  }

  lemma UsedFits(total: int, percent: real)
    requires total >= 0 && 0.0 <= percent <= 100.0
    ensures 0 <= MemoryUsed(total, percent) <= total
  {
    ShareFits(total as real, percent);
  }

  lemma ShareFits(total: real, percent: real)
    requires total >= 0.0 && 0.0 <= percent <= 100.0
    ensures 0.0 <= total * percent / 100.0 <= total
  {
    assert total * (100.0 - percent) >= 0.0;
  }

  function BuildFabric(m: Metrics): FabricReading {
    FabricReading(Or(m.ibPortUp, 1), OrText(m.ibState, "ACTIVE"), OrText(m.ibPhysicalState, "LINK_UP"),
                  Or(m.ibLinkRateGbps, 200.0), Or(m.ibTxBytesTotal, 0), Or(m.ibRxBytesTotal, 0),
                  Or(m.ibSymbolErrorsTotal, 0), Or(m.ibLinkErrorRecoveryTotal, 0), Or(m.ibLinkDownedTotal, 0),
                  Or(m.ibXmitDiscardsTotal, 0), Or(m.ibXmitWaitTotal, 0), Or(m.rdmaRetriesTotal, 0),
                  Or(m.rdmaTimeoutsTotal, 0), Or(m.fabricDelaySeconds, 0.0))
  }

  /** Metrics without overrides, in the sense of the check, leave the fabric alone exactly when their two state texts
      are empty: the check trims those texts and the builder does not. */
  lemma FabricUntouched(m: Metrics)
    requires !HasFabricOverrides(m)
    ensures BuildFabric(m) == BuildFabric(NO_METRICS) <==> m.ibState == "" && m.ibPhysicalState == ""
  {
    TrimKeeps("ACTIVE");
    TrimKeeps("LINK_UP");
  }

  /** A blank state text passes the override check and still changes the fabric. */
  lemma BlankStateSlipsThrough()
    ensures var m := NO_METRICS.(ibState := " ");
            !HasFabricOverrides(m) && BuildFabric(m) != BuildFabric(NO_METRICS) && !ValidMetrics(m)
  {
    var m := NO_METRICS.(ibState := " ");
    assert TrimLeft(" ") == TrimLeft(" "[1..]);
    assert BuildFabric(m).state == " ";
    assert BuildFabric(NO_METRICS).state == "ACTIVE";
  }

  /** Not rebuilding the fabric when the phase changes is sound: every phase of a validated timeline has the fabric of
      the scenario's own metrics. */
  lemma PhasesShareTheFabric(s: Scenario, i: nat)
    requires Valid(s) && s.timeline.Some? && i < 4
    ensures BuildFabric(Steps(s)[i].metrics) == BuildFabric(s.metrics) == BuildFabric(NO_METRICS)
  {
    var m := Steps(s)[i].metrics;
    assert ValidStep(s.targets, Steps(s)[i], i);
    AllowedStatesAreNotBlank(m);
    FabricUntouched(m);
  }

  lemma AllowedStatesAreNotBlank(m: Metrics)
    requires ValidMetrics(m)
    ensures m.ibState == "" || !Blank(m.ibState)
    ensures m.ibPhysicalState == "" || !Blank(m.ibPhysicalState)
  {
    AllowedTextIsNotBlank(m.ibState);
    AllowedTextIsNotBlank(m.ibPhysicalState);
  }

  lemma AllowedTextIsNotBlank(text: string)
    ensures ValidIBState(text) || ValidIBPhysicalState(text) ==> !Blank(text)
  {
    if ValidIBState(text) || ValidIBPhysicalState(text) {
      assert |text| >= 4 && 'A' <= text[0] <= 'Z' && 'A' <= text[|text| - 1] <= 'Z';
      TrimKeeps(text);
    }
  }

  // ---------------------------------------------------------------------------------------------
  // The cached view
  // ---------------------------------------------------------------------------------------------

  /** The fields the exporter keeps. */
  datatype View = View(
    node: string,
    gpuCount: nat,
    scenario: Scenario,
    generation: string,
    startedAt: nat,
    phase: string,
    phaseIndex: int,
    readings: seq<Reading>,
    fault: string,
    expiresAt: int,
    fabric: FabricReading)

  /** What an observer is shown. */
  datatype Shown = Shown(node: string, scenario: string, generation: string, phase: string, startedAt: nat,
                         fault: string, readings: seq<Reading>, fabric: FabricReading)

  function Show(v: View): Shown {
    Shown(v.node, v.scenario.name, v.generation, v.phase, v.startedAt, v.fault, v.readings, v.fabric)
  }

  /** A scenario as applied to a node. */
  datatype Applied = Applied(node: string, gpuCount: nat, scenario: Scenario, generation: string, startedAt: nat)

  function Active(a: Applied): Scenario {
    if SelectorMatches(a.node, a.scenario.targets.selector) then a.scenario else NORMAL
  }

  /** When the scenario ends on this node; zero if it does not. */
  function Deadline(a: Applied): int {
    if SelectorMatches(a.node, a.scenario.targets.selector) && a.scenario.duration.Duration?
    then a.startedAt + a.scenario.duration.ns else 0
  }

  function Fresh(a: Applied): View {
    View(a.node, a.gpuCount, Active(a), a.generation, a.startedAt, "", -1, Readings(a.node, a.gpuCount, Active(a)),
         Fault(Active(a).actions), Deadline(a), BuildFabric(Active(a).metrics))
  }

  /** Applying at an unset start uses the current instant. */
  function Anchored(startedAt: nat, now: nat): nat {
    if startedAt == 0 then now else startedAt
  }

  function Lapsed(v: View): View {
    v.(scenario := NORMAL, readings := Readings(v.node, v.gpuCount, NORMAL), fabric := BuildFabric(NORMAL.metrics),
       fault := "", phase := "", phaseIndex := -1, expiresAt := 0)
  }

  function Entered(v: View, i: nat): View
    requires i < |Steps(v.scenario)|
  {
    var step := Steps(v.scenario)[i];
    v.(readings := Readings(v.node, v.gpuCount, v.scenario.(metrics := step.metrics)),
       phase := step.phase, phaseIndex := i)
  }

  function Refreshed(v: View, now: nat): View {
    if v.expiresAt != 0 && now >= v.expiresAt then Lapsed(v)
    else Moved(v, PhaseIndex(Steps(v.scenario), now - v.startedAt))
  }

  function Moved(v: View, phase: Option<nat>): View
    requires phase.Some? ==> phase.value < |Steps(v.scenario)|
  {
    if phase.Some? && phase.value != v.phaseIndex then Entered(v, phase.value) else v
  }

  function RefreshedBy(v: View, times: seq<nat>): View {
    if times == [] then v else Refreshed(RefreshedBy(v, times[..|times| - 1]), times[|times| - 1])
  }

  // ---------------------------------------------------------------------------------------------
  // The view as a function of the instant
  // ---------------------------------------------------------------------------------------------

  /** What is shown at `now`, computed from nothing but the applied scenario: everything is rebuilt, the fabric too. */
  function Display(a: Applied, lapsed: bool, now: nat): Shown {
    var s := if lapsed then NORMAL else Active(a);
    var phase := PhaseIndex(Steps(s), now - a.startedAt);
    if phase.None? then
      Shown(a.node, s.name, a.generation, "", a.startedAt, Fault(s.actions), Readings(a.node, a.gpuCount, s),
            BuildFabric(s.metrics))
    else
      var step := Steps(s)[phase.value];
      Shown(a.node, s.name, a.generation, step.phase, a.startedAt, Fault(s.actions),
            Readings(a.node, a.gpuCount, s.(metrics := step.metrics)), BuildFabric(step.metrics))
  }

  predicate Over(a: Applied, now: nat) {
    Deadline(a) != 0 && now >= Deadline(a)
  }

  function At(a: Applied, now: nat): Shown {
    Display(a, Over(a, now), now)
  }

  /** Some observation fell at or after the deadline. */
  predicate EverOver(a: Applied, times: seq<nat>) {
    exists i | 0 <= i < |times| :: Over(a, times[i])
  }

  /** The cache between two observations: what `Fresh` gave, moved to some phase, or lapsed. */
  predicate Tracks(a: Applied, v: View, lapsed: bool) {
    if lapsed then v == Lapsed(Fresh(a)) else MovedFrom(Fresh(a), v)
  }

  predicate MovedFrom(origin: View, v: View) {
    v == origin || (0 <= v.phaseIndex < |Steps(origin.scenario)| && v == Entered(origin, v.phaseIndex))
  }

  /** The phase the cache holds is the phase at `now`. */
  predicate OnTime(a: Applied, v: View, lapsed: bool, now: nat) {
    lapsed || InPhase(v, PhaseIndex(Steps(Active(a)), now - a.startedAt))
  }

  predicate InPhase(v: View, phase: Option<nat>) {
    v.phaseIndex == if phase.Some? then phase.value else -1
  }

  /** What the view relies on in a validated scenario: a timeline that always has a phase ... */
  ghost predicate Settled(s: Scenario) {
    s.timeline.Some? ==> Ordered(Steps(s)) && Steps(s) != []
  }

  /** ... and whose phases share the fabric of the scenario's own metrics. */
  ghost predicate SharesFabric(s: Scenario) {
    forall i | 0 <= i < |Steps(s)| :: BuildFabric(Steps(s)[i].metrics) == BuildFabric(s.metrics)
  }

  lemma ValidIsSettled(s: Scenario)
    requires Valid(s)
    ensures Settled(s) && SharesFabric(s)
  {
    if s.timeline.Some? {
      forall i | 0 <= i < |Steps(s)|
        ensures BuildFabric(Steps(s)[i].metrics) == BuildFabric(s.metrics)
      {
        PhasesShareTheFabric(s, i);
      }
    }
  }

  lemma PhaseIsSettled(s: Scenario, elapsed: int)
    requires Settled(s)
    ensures PhaseIndex(Steps(s), elapsed).Some? <==> s.timeline.Some?
  {
    if s.timeline.Some? {
      PhaseIsLastReached(Steps(s), elapsed, 0);
    }
  }

  lemma LapsedStays(a: Applied, now: nat)
    ensures Refreshed(Lapsed(Fresh(a)), now) == Lapsed(Fresh(a))
  {
    assert Steps(NORMAL) == [];
  }

  lemma Lapses(a: Applied, v: View, now: nat)
    requires Tracks(a, v, false) && Over(a, now)
    ensures Refreshed(v, now) == Lapsed(Fresh(a))
  {
  }

  /** Entering a phase from another one is entering it from the start. */
  lemma Moves(origin: View, v: View, phase: Option<nat>)
    requires MovedFrom(origin, v) && origin.phaseIndex == -1
    requires phase.Some? ==> phase.value < |Steps(origin.scenario)|
    requires phase.None? ==> Steps(origin.scenario) == []
    ensures MovedFrom(origin, Moved(v, phase)) && InPhase(Moved(v, phase), phase)
  {
  }

  lemma MovesOn(a: Applied, v: View, now: nat)
    requires Settled(a.scenario) && Tracks(a, v, false) && !Over(a, now)
    ensures Tracks(a, Refreshed(v, now), false) && OnTime(a, Refreshed(v, now), false, now)
  {
    PhaseIsSettled(Active(a), now - a.startedAt);
    Moves(Fresh(a), v, PhaseIndex(Steps(Active(a)), now - a.startedAt));
  }

  /** One refresh brings the cache up to date and keeps a lapsed scenario lapsed. */
  lemma RefreshTracks(a: Applied, v: View, lapsed: bool, now: nat)
    requires Settled(a.scenario) && Tracks(a, v, lapsed)
    ensures var over := lapsed || Over(a, now);
            Tracks(a, Refreshed(v, now), over) && OnTime(a, Refreshed(v, now), over, now)
  {
    if lapsed {
      LapsedStays(a, now);
    } else if Over(a, now) {
      Lapses(a, v, now);
    } else {
      MovesOn(a, v, now);
    }
  }

  lemma {:induction false} RefreshesTrack(a: Applied, times: seq<nat>)
    requires Settled(a.scenario)
    ensures var v := RefreshedBy(Fresh(a), times);
            && Tracks(a, v, EverOver(a, times))
            && (times != [] ==> OnTime(a, v, EverOver(a, times), times[|times| - 1]))
  {
    if times != [] {
      var front, now := times[..|times| - 1], times[|times| - 1];
      RefreshesTrack(a, front);
      RefreshTracks(a, RefreshedBy(Fresh(a), front), EverOver(a, front), now);
      EverOverLast(a, front, now);
      assert front + [now] == times;
    }
  }

  lemma EverOverLast(a: Applied, front: seq<nat>, now: nat)
    ensures EverOver(a, front + [now]) <==> EverOver(a, front) || Over(a, now)
  {
    var times := front + [now];
    if EverOver(a, front) {
      var i :| 0 <= i < |front| && Over(a, front[i]);
      assert Over(a, times[i]);
    }
    assert times[|front|] == now;
  }

  /** A cache that is up to date shows what a rebuild from scratch would. */
  lemma OnTimeShows(a: Applied, v: View, lapsed: bool, now: nat)
    requires Settled(a.scenario) && SharesFabric(a.scenario) && Tracks(a, v, lapsed) && OnTime(a, v, lapsed, now)
    ensures Show(v) == Display(a, lapsed, now)
  {
    PhaseIsSettled(Active(a), now - a.startedAt);
  }

  /** For every sequence of observations, under any clock, the last one shows what a rebuild from scratch would at
      that instant, except that a scenario seen to be over stays over. */
  lemma ObservationsShow(a: Applied, times: seq<nat>)
    requires Settled(a.scenario) && SharesFabric(a.scenario) && times != []
    ensures Show(RefreshedBy(Fresh(a), times)) == Display(a, EverOver(a, times), times[|times| - 1])
  {
    RefreshesTrack(a, times);
    OnTimeShows(a, RefreshedBy(Fresh(a), times), EverOver(a, times), times[|times| - 1]);
  }

  /** A GPU that a scenario does not target reads the documented defaults in every snapshot, whatever the phase, however
      often and under whatever clock the exporter is observed, and after the scenario is over. */
  lemma UntargetedStaysNormal(a: Applied, times: seq<nat>, i: nat)
    requires Valid(a.scenario) && times != [] && i < a.gpuCount
    requires a.scenario.targets.gpuIndices != [] && i !in a.scenario.targets.gpuIndices
    ensures var readings := Show(RefreshedBy(Fresh(a), times)).readings;
            && |readings| == a.gpuCount
            && readings[i] == Reading(a.node, i, 15.0, 3_435_973_836, 17_179_869_184, 45.0, 80.0, 0, 1, 0, 0, 0, 0,
                                      "none", 0)
  {
    var last := times[|times| - 1];
    ValidIsSettled(a.scenario);
    ObservationsShow(a, times);
    DisplayedUntargeted(a, EverOver(a, times), last, i);
    BaselineReads(a.node, a.gpuCount, i);
  }

  lemma DisplayedUntargeted(a: Applied, lapsed: bool, now: nat, i: nat)
    requires i < a.gpuCount && !Targeted(i, a.scenario.targets.gpuIndices)
    ensures var readings := Display(a, lapsed, now).readings;
            |readings| == a.gpuCount && readings[i] == Readings(a.node, a.gpuCount, NORMAL)[i]
  {
    var s := if lapsed then NORMAL else Active(a);
    if s == a.scenario {
      UntargetedReadNormal(a.node, a.gpuCount, s, i);
      var phase := PhaseIndex(Steps(s), now - a.startedAt);
      if phase.Some? {
        UntargetedReadNormal(a.node, a.gpuCount, s.(metrics := Steps(s)[phase.value].metrics), i);
      }
    } else {
      assert Steps(s) == [];
    }
  }

  ghost predicate NonDecreasing(times: seq<nat>) {
    forall i, j | 0 <= i < j < |times| :: times[i] <= times[j]
  }

  lemma LastTellsOver(a: Applied, times: seq<nat>)
    requires times != [] && NonDecreasing(times)
    ensures EverOver(a, times) <==> Over(a, times[|times| - 1])
  {
    var last := |times| - 1;
    if EverOver(a, times) {
      var i :| 0 <= i < |times| && Over(a, times[i]);
      assert times[i] <= times[last];
    }
  }

  lemma LastObservationShows(a: Applied, times: seq<nat>)
    requires Settled(a.scenario) && SharesFabric(a.scenario) && times != [] && NonDecreasing(times)
    ensures Show(RefreshedBy(Fresh(a), times)) == At(a, times[|times| - 1])
  {
    ObservationsShow(a, times);
    LastTellsOver(a, times);
  }

  /** Under a clock that does not go back, what is shown depends on the last instant alone. */
  lemma HistoryIndependent(a: Applied, times: seq<nat>)
    requires Valid(a.scenario) && times != [] && NonDecreasing(times)
    ensures Show(RefreshedBy(Fresh(a), times)) == At(a, times[|times| - 1])
  {
    ValidIsSettled(a.scenario);
    LastObservationShows(a, times);
  }

  /** An exporter that restarts and applies the same scenario with its recorded start agrees with one that never
      stopped, whatever each of them had shown before. */
  lemma RestartAgrees(a: Applied, earlier: nat, later: nat, times: seq<nat>, others: seq<nat>, now: nat)
    requires Valid(a.scenario) && a.startedAt != 0
    requires NonDecreasing(times + [now]) && NonDecreasing(others + [now])
    ensures Show(RefreshedBy(Fresh(a.(startedAt := Anchored(a.startedAt, earlier))), times + [now])) ==
            Show(RefreshedBy(Fresh(a.(startedAt := Anchored(a.startedAt, later))), others + [now]))
  {
    HistoryIndependent(a, times + [now]);
    HistoryIndependent(a, others + [now]);
  }

  // ---------------------------------------------------------------------------------------------
  // The exporter's model
  // ---------------------------------------------------------------------------------------------

  class Model {
    const node: string
    const gpuCount: nat
    var scenario: Scenario
    var generation: string
    var startedAt: nat
    var phase: string
    var phaseIndex: int
    var readings: seq<Reading>
    var fault: string
    var expiresAt: int
    var fabric: FabricReading

    ghost function Contents(): View
      reads this
    {
      View(node, gpuCount, scenario, generation, startedAt, phase, phaseIndex, readings, fault, expiresAt, fabric)
    }

    constructor (nodeName: string, count: int, now: nat)
      ensures node == (if Blank(nodeName) then "unknown-node" else nodeName)
      ensures gpuCount == (if count <= 0 then DEFAULT_GPU_COUNT else count)
      ensures Contents() == Fresh(Applied(node, gpuCount, NORMAL, "0", now))
    {
      node := if Blank(nodeName) then "unknown-node" else nodeName;
      gpuCount := if count <= 0 then DEFAULT_GPU_COUNT else count;
      scenario, generation, startedAt, phase, phaseIndex := NORMAL, "", 0, "", -1;
      readings, fault, expiresAt, fabric := [], "", 0, BuildFabric(NO_METRICS);
      new;
      ApplyAt(NORMAL, "0", now, now);
    }

    /** Whatever was applied before leaves no trace. */
    method ApplyAt(s: Scenario, gen: string, start: nat, now: nat)
      modifies this
      ensures Contents() == Fresh(Applied(node, gpuCount, s, gen, Anchored(start, now)))
      ensures startedAt == if start == 0 then now else start
    {
      var anchor := if start == 0 then now else start;
      var matched := SelectorMatches(node, s.targets.selector);
      var active := if matched then s else NORMAL;
      var built := BuildReadings(node, gpuCount, active);
      var expiry: int := 0;
      if matched && s.duration.Duration? {
        expiry := anchor + s.duration.ns;
      }
      scenario, generation, startedAt := active, gen, anchor;
      phase, phaseIndex := "", -1;
      readings, fault, expiresAt, fabric := built, Fault(active.actions), expiry, BuildFabric(active.metrics);
    }

    method RefreshExpired(now: nat)
      modifies this
      ensures Contents() == Refreshed(old(Contents()), now)
    {
      if expiresAt == 0 || now < expiresAt {
        var step, index := PhaseAt(Steps(scenario), now - startedAt);
        if step.Some? && index != phaseIndex {
          readings := BuildReadings(node, gpuCount, scenario.(metrics := step.value.metrics));
          phase := step.value.phase;
          phaseIndex := index;
        }
        return;
      }
      scenario := NORMAL;
      readings := BuildReadings(node, gpuCount, NORMAL);
      fabric := BuildFabric(NORMAL.metrics);
      fault, phase, phaseIndex, expiresAt := "", "", -1, 0;
    }

    method Snapshot(now: nat) returns (shown: Shown)
      modifies this
      ensures Contents() == Refreshed(old(Contents()), now)
      ensures shown == Show(Contents())
    {
      RefreshExpired(now);
      shown := Shown(node, scenario.name, generation, phase, startedAt, fault, readings, fabric);
    }

    method IsUnavailable(now: nat) returns (unavailable: bool)
      modifies this
      ensures Contents() == Refreshed(old(Contents()), now)
      ensures unavailable <==> Show(Contents()).fault == "unavailable"
    {
      RefreshExpired(now);
      unavailable := fault == "unavailable";
    }
  }
}
