/** What the exporter shows, field by field: a scenario's own values where its selector matches and while it lasts, and the
    documented defaults everywhere else. */
module ExporterShows {
  import opened Prelude
  import opened Scenarios
  import opened Exporters

  // ---------------------------------------------------------------------------------------------
  // Fields
  // ---------------------------------------------------------------------------------------------

  /** A field shows its override; without one, its default. */
  ghost predicate Gives<T>(override: Option<T>, field: T, default: T) {
    match override
    case Some(value) => field == value
    case None => field == default
  }

  ghost predicate GivesText(override: string, field: string, default: string) {
    (override != "" ==> field == override) && (override == "" ==> field == default)
  }

  /** The whole bytes of a share of the memory. */
  ghost predicate GivesShare(percent: Option<real>, total: int, used: int) {
    var share := total as real * (if percent.Some? then percent.value else 20.0) / 100.0;
    0 <= used && used as real <= share < used as real + 1.0
  }

  /** A GPU shows these metrics, each in its own field. */
  ghost predicate ShowsMetrics(r: Reading, m: Metrics) {
    && Gives(m.gpuUtilizationPercent, r.utilizationPercent, 15.0)
    && Gives(m.gpuMemoryTotalBytes, r.memoryTotalBytes, 17_179_869_184)
    && GivesShare(m.gpuMemoryUsedPercent, r.memoryTotalBytes, r.memoryUsedBytes)
    && Gives(m.temperatureCelsius, r.temperatureCelsius, 45.0) && Gives(m.powerWatts, r.powerWatts, 80.0)
    && Gives(m.xidCode, r.xidCode, 0) && Gives(m.health, r.health, 1) && Gives(m.eccDbeTotal, r.eccDbeTotal, 0)
    && Gives(m.powerViolationTotal, r.powerViolationTotal, 0) && Gives(m.pcieReplayTotal, r.pcieReplayTotal, 0)
    && Gives(m.throttleActive, r.throttleActive, 0) && GivesText(m.throttleReason, r.throttleReason, "none")
  }

  /** The fabric shows these metrics, each in its own field. */
  ghost predicate ShowsFabric(f: FabricReading, m: Metrics) {
    && Gives(m.ibPortUp, f.portUp, 1) && GivesText(m.ibState, f.state, "ACTIVE")
    && GivesText(m.ibPhysicalState, f.physicalState, "LINK_UP") && Gives(m.ibLinkRateGbps, f.linkRateGbps, 200.0)
    && Gives(m.ibTxBytesTotal, f.txBytesTotal, 0) && Gives(m.ibRxBytesTotal, f.rxBytesTotal, 0)
    && Gives(m.ibSymbolErrorsTotal, f.symbolErrorsTotal, 0)
    && Gives(m.ibLinkErrorRecoveryTotal, f.linkErrorRecoveryTotal, 0)
    && Gives(m.ibLinkDownedTotal, f.linkDownedTotal, 0) && Gives(m.ibXmitDiscardsTotal, f.xmitDiscardsTotal, 0)
    && Gives(m.ibXmitWaitTotal, f.xmitWaitTotal, 0) && Gives(m.rdmaRetriesTotal, f.rdmaRetriesTotal, 0)
    && Gives(m.rdmaTimeoutsTotal, f.rdmaTimeoutsTotal, 0) && Gives(m.fabricDelaySeconds, f.fabricDelaySeconds, 0.0)
  }

  lemma ReadingShows(node: string, i: nat, m: Metrics, reserved: int)
    requires ValidMetrics(m)
    ensures ShowsMetrics(MakeReading(node, i, m, reserved), m)
  {
    var total := Or(m.gpuMemoryTotalBytes, DEFAULT_MEMORY_TOTAL);
    ShareFits(total as real, Or(m.gpuMemoryUsedPercent, 20.0));
  }

  lemma FabricShows(m: Metrics)
    ensures ShowsFabric(BuildFabric(m), m)
  {
  }

  // ---------------------------------------------------------------------------------------------
  // Where and when
  // ---------------------------------------------------------------------------------------------

  /** The labels a node carries: its type, its own name, the id that stands for it, and no other. A selector asks for each
      of its labels. */
  lemma LabelsExactly(node: string, key: string, value: string, selector: map<string, string>)
    ensures SelectorMatches(node, map["gpu.lab/type" := value]) <==> value == "fake"
    ensures SelectorMatches(node, map["kubernetes.io/hostname" := value]) <==> value == node
    ensures SelectorMatches("gpu-lab-worker", map["gpu.lab/node-id" := value]) <==> value == "gpu-node-01"
    ensures SelectorMatches("gpu-lab-worker2", map["gpu.lab/node-id" := value]) <==> value == "gpu-node-02"
    ensures SelectorMatches("gpu-lab-worker3", map["gpu.lab/node-id" := value]) <==> value == "gpu-node-03"
    ensures key != "gpu.lab/type" && key != "kubernetes.io/hostname" && key != "gpu.lab/node-id" ==>
              (SelectorMatches(node, map[key := value]) <==> value == "")
    ensures SelectorMatches(node, selector) <==>
              forall k | k in selector :: SelectorMatches(node, map[k := selector[k]])
  {
    LabelAlone(node, "gpu.lab/type", value);
    LabelAlone(node, "kubernetes.io/hostname", value);
    LabelAlone("gpu-lab-worker", "gpu.lab/node-id", value);
    LabelAlone("gpu-lab-worker2", "gpu.lab/node-id", value);
    LabelAlone("gpu-lab-worker3", "gpu.lab/node-id", value);
    LabelAlone(node, key, value);
    KeysDiffer();
    WorkerIds();
    forall k | k in selector
      ensures SelectorMatches(node, map[k := selector[k]]) <==> LabelOf(node, k) == selector[k]
    {
      LabelAlone(node, k, selector[k]);
    }
  }

  lemma LabelAlone(node: string, key: string, value: string)
    ensures SelectorMatches(node, map[key := value]) <==> LabelOf(node, key) == value
  {
    assert map[key := value][key] == value;
  }

  lemma KeysDiffer()
    ensures "gpu.lab/type" != "kubernetes.io/hostname" && "gpu.lab/type" != "gpu.lab/node-id"
    ensures "kubernetes.io/hostname" != "gpu.lab/node-id"
  {
    assert |"gpu.lab/type"| == 12 && |"kubernetes.io/hostname"| == 22 && |"gpu.lab/node-id"| == 15;
  }

  lemma WorkerIds()
    ensures SyntheticNodeId("gpu-lab-worker") == "gpu-node-01"
    ensures SyntheticNodeId("gpu-lab-worker2") == "gpu-node-02"
    ensures SyntheticNodeId("gpu-lab-worker3") == "gpu-node-03"
  {
    assert |"gpu-lab-worker"| == 14 && |"gpu-lab-worker2"| == |"gpu-lab-worker3"| == 15;
    assert "gpu-lab-worker2"[14] == '2' && "gpu-lab-worker3"[14] == '3' && "gpu-node-"[4] == 'n';
    assert "gpu-lab-worker"[4] == "gpu-lab-worker2"[4] == "gpu-lab-worker3"[4] == 'l';
  }

  /** Every observation is before the scenario's end. */
  ghost predicate AllBeforeEnd(a: Applied, times: seq<nat>) {
    a.scenario.duration.Duration? ==>
      forall i | 0 <= i < |times| :: times[i] < a.startedAt + a.scenario.duration.ns
  }

  /** The phase in force at an elapsed time: its offset is reached, and the next one's is not. */
  ghost predicate InForce(steps: seq<TimelineStep>, k: int, elapsed: int) {
    && 0 <= k < |steps| && steps[k].at.Some? && steps[k].at.value <= Max(elapsed, 0)
    && (k + 1 < |steps| ==> steps[k + 1].at.Some? && Max(elapsed, 0) < steps[k + 1].at.value)
  }

  /** The first action of a kind. */
  ghost predicate IsFirst(actions: seq<Action>, k: int, kind: string) {
    && 0 <= k < |actions| && actions[k].kind == kind
    && forall j | 0 <= j < k :: actions[j].kind != kind
  }

  lemma {:induction false} FindActionIsFirst(actions: seq<Action>, kind: string)
    ensures match FindAction(actions, kind)
            case Some(action) => exists k :: IsFirst(actions, k, kind) && actions[k] == action
            case None => forall k | 0 <= k < |actions| :: actions[k].kind != kind
  {
    if actions != [] {
      var rest := actions[1..];
      FindActionIsFirst(rest, kind);
      assert forall k | 0 < k < |actions| :: actions[k] == rest[k - 1];
      if actions[0].kind == kind {
        assert IsFirst(actions, 0, kind);
      } else if FindAction(rest, kind).Some? {
        var k :| IsFirst(rest, k, kind) && rest[k] == FindAction(rest, kind).value;
        assert IsFirst(actions, k + 1, kind);
      }
    }
  }

  /** The scenario asks for this many GPUs of the node: none if it names no count, or if its first workload goes to
      nodes with other labels. */
  ghost predicate Asks(node: string, s: Scenario, m: Metrics, count: int) {
    match m.gpuAllocatedCount
    case None => count == 0
    case Some(asked) =>
      if exists k :: IsFirst(s.actions, k, "create_gpu_workload") && !SelectorMatches(node, s.actions[k].nodeSelector)
      then count == 0 else count == asked
  }

  lemma AsksAllocated(node: string, s: Scenario, m: Metrics)
    ensures Asks(node, s, m, AllocationCount(node, s.(metrics := m)))
  {
    FindActionIsFirst(s.actions, "create_gpu_workload");
    forall i, j | IsFirst(s.actions, i, "create_gpu_workload") && IsFirst(s.actions, j, "create_gpu_workload")
      ensures i == j
    {
    }
  }

  /** The targeted ones of the GPUs below `n`. */
  ghost function TargetsBelow(indices: seq<int>, n: nat): (r: set<int>)
    ensures forall i :: i in r <==> 0 <= i < n && (indices == [] || i in indices)
  {
    if n == 0 then {}
    else TargetsBelow(indices, n - 1) + if indices == [] || n - 1 in indices then {n - 1} else {}
  }

  lemma {:induction false} TargetedCount(indices: seq<int>, n: nat)
    ensures |TargetsBelow(indices, n)| == TargetedBelow(indices, n)
  {
    if n > 0 {
      TargetedCount(indices, n - 1);
    }
  }

  /** The GPUs a scenario targets show these metrics, and as many as the node is asked for are reserved, lowest first. */
  ghost predicate ShowsOnGpus(readings: seq<Reading>, node: string, s: Scenario, m: Metrics) {
    exists count :: Asks(node, s, m, count) && forall i | 0 <= i < |readings| ::
      var targeted := s.targets.gpuIndices == [] || i in s.targets.gpuIndices;
      && readings[i].node == node && readings[i].index == i
      && (targeted ==> ShowsMetrics(readings[i], m))
      && readings[i].reserved == if targeted && |TargetsBelow(s.targets.gpuIndices, i)| < count then 1 else 0
  }

  /** Every GPU shows the documented defaults. */
  ghost predicate GpusShowDefaults(readings: seq<Reading>, node: string) {
    forall i | 0 <= i < |readings| ::
      readings[i] ==
      Reading(node, i, 15.0, 3_435_973_836, 17_179_869_184, 45.0, 80.0, 0, 1, 0, 0, 0, 0, "none", 0)
  }

  /** A scenario that overrides no GPU metric leaves all GPUs at their defaults. */
  lemma GpusUntouched(readings: seq<Reading>, node: string, s: Scenario, m: Metrics)
    requires ShowsOnGpus(readings, node, s, m) && s.targets.gpuIndices == []
    requires m == NO_METRICS.(ibPortUp := m.ibPortUp, ibState := m.ibState, ibPhysicalState := m.ibPhysicalState,
                              ibLinkRateGbps := m.ibLinkRateGbps, ibTxBytesTotal := m.ibTxBytesTotal,
                              ibRxBytesTotal := m.ibRxBytesTotal, ibSymbolErrorsTotal := m.ibSymbolErrorsTotal,
                              ibLinkErrorRecoveryTotal := m.ibLinkErrorRecoveryTotal,
                              ibLinkDownedTotal := m.ibLinkDownedTotal, ibXmitDiscardsTotal := m.ibXmitDiscardsTotal,
                              ibXmitWaitTotal := m.ibXmitWaitTotal, rdmaRetriesTotal := m.rdmaRetriesTotal,
                              rdmaTimeoutsTotal := m.rdmaTimeoutsTotal, fabricDelaySeconds := m.fabricDelaySeconds)
    ensures GpusShowDefaults(readings, node)
  {
    assert 17_179_869_184 as real * 20.0 / 100.0 == 3_435_973_836.8;
  }

  ghost predicate ShowsOn(shown: Shown, s: Scenario, m: Metrics) {
    ShowsOnGpus(shown.readings, shown.node, s, m) && ShowsFabric(shown.fabric, m)
  }

  lemma ShowsReadings(node: string, gpuCount: nat, s: Scenario, m: Metrics)
    requires ValidMetrics(m)
    ensures ShowsOnGpus(Readings(node, gpuCount, s.(metrics := m)), node, s, m)
  {
    var readings := Readings(node, gpuCount, s.(metrics := m));
    var indices, count := s.targets.gpuIndices, AllocationCount(node, s.(metrics := m));
    AsksAllocated(node, s, m);
    forall i | 0 <= i < |readings|
      ensures var targeted := indices == [] || i in indices;
              && readings[i].node == node && readings[i].index == i
              && (targeted ==> ShowsMetrics(readings[i], m))
              && readings[i].reserved == if targeted && |TargetsBelow(indices, i)| < count then 1 else 0
    {
      TargetedCount(indices, i);
      ReadingShows(node, i, m, if TargetedBelow(indices, i) < count then 1 else 0);
    }
  }

  lemma NotYetOver(a: Applied, times: seq<nat>)
    requires AllBeforeEnd(a, times)
    ensures !EverOver(a, times)
  {
  }

  /** A node that carries the selector's labels, observed only before the end, shows the scenario: its name, its
      fault, and its metrics, which for a staged one are those of the phase in force. */
  lemma MatchedShows(a: Applied, times: seq<nat>)
    requires Valid(a.scenario) && times != []
    requires SelectorMatches(a.node, a.scenario.targets.selector) && AllBeforeEnd(a, times)
    ensures var shown, s, elapsed := Show(RefreshedBy(Fresh(a), times)), a.scenario, times[|times| - 1] - a.startedAt;
            && shown.node == a.node && shown.scenario == s.name
            && shown.generation == a.generation && shown.startedAt == a.startedAt
            && (shown.fault == if exists k :: 0 <= k < |s.actions| && s.actions[k].kind == "exporter_fault"
                               then "unavailable" else "")
            && |shown.readings| == a.gpuCount
            && match s.timeline
               case None => shown.phase == "" && ShowsOn(shown, s, s.metrics)
               case Some(steps) =>
                 exists k :: InForce(steps, k, elapsed) && shown.phase == steps[k].phase
                             && ShowsOn(shown, s, steps[k].metrics)
  {
    var shown, now := Show(RefreshedBy(Fresh(a), times)), times[|times| - 1];
    ValidIsSettled(a.scenario);
    ObservationsShow(a, times);
    NotYetOver(a, times);
    FindActionIsFirst(a.scenario.actions, "exporter_fault");
    PhaseIsSettled(a.scenario, now - a.startedAt);
    if a.scenario.timeline.None? {
      assert a.scenario.(metrics := a.scenario.metrics) == a.scenario;
      ShowsReadings(a.node, a.gpuCount, a.scenario, a.scenario.metrics);
      FabricShows(a.scenario.metrics);
    } else {
      var k := PhaseIndex(Steps(a.scenario), now - a.startedAt).value;
      PhaseIsLastReached(Steps(a.scenario), now - a.startedAt, k);
      assert ValidStep(a.scenario.targets, Steps(a.scenario)[k], k);
      ShowsReadings(a.node, a.gpuCount, a.scenario, Steps(a.scenario)[k].metrics);
      FabricShows(Steps(a.scenario)[k].metrics);
      assert InForce(a.scenario.timeline.value, k, now - a.startedAt);
    }
  }

  /** No two phases are in force at once. */
  lemma OneInForce(s: Scenario, elapsed: int, i: int, j: int)
    requires Valid(s) && s.timeline.Some? && i < j && InForce(s.timeline.value, i, elapsed)
    ensures !InForce(s.timeline.value, j, elapsed)
  {
    var steps := Steps(s);
    assert j < |steps| ==> Offset(steps[i + 1]) <= Offset(steps[j]);
  }

  /** Nothing of any scenario: every GPU and the fabric show the documented defaults. */
  ghost predicate ShowsBaseline(shown: Shown, a: Applied) {
    && shown.node == a.node && shown.scenario == "normal" && shown.phase == "" && shown.fault == ""
    && shown.generation == a.generation && shown.startedAt == a.startedAt
    && |shown.readings| == a.gpuCount
    && GpusShowDefaults(shown.readings, a.node)
    && shown.fabric == FabricReading(1, "ACTIVE", "LINK_UP", 200.0, 0, 0, 0, 0, 0, 0, 0, 0, 0, 0.0)
  }

  /** A node that lacks a label of the selector, and any node once it was observed at or after the end, shows nothing of the
      scenario, whatever it showed before. */
  lemma OthersShowBaseline(a: Applied, times: seq<nat>)
    requires Valid(a.scenario) && times != []
    requires !SelectorMatches(a.node, a.scenario.targets.selector) || !AllBeforeEnd(a, times)
    ensures ShowsBaseline(Show(RefreshedBy(Fresh(a), times)), a)
  {
    ValidIsSettled(a.scenario);
    ObservationsShow(a, times);
    if SelectorMatches(a.node, a.scenario.targets.selector) {
      var i :| 0 <= i < |times| && times[i] >= a.startedAt + a.scenario.duration.ns;
      assert Over(a, times[i]);
    }
    assert Steps(NORMAL) == [];
    forall i | 0 <= i < a.gpuCount
      ensures Readings(a.node, a.gpuCount, NORMAL)[i] ==
              Reading(a.node, i, 15.0, 3_435_973_836, 17_179_869_184, 45.0, 80.0, 0, 1, 0, 0, 0, 0, "none", 0)
    {
      BaselineReads(a.node, a.gpuCount, i);
    }
  }
}
