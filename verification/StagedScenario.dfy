/** Which scenarios are accepted, field by field and on the built-in staged one, and what the exporter shows as the staged
    one unfolds. */
module StagedScenario {
  import opened Prelude
  import opened Text
  import opened Scenarios
  import E = Exporters
  import V = ExporterShows

  // ---------------------------------------------------------------------------------------------
  // Ranges
  // ---------------------------------------------------------------------------------------------

  /** The range of each number an override may give to a GPU. */
  lemma GpuRanges(x: real, n: int)
    ensures ValidMetrics(NO_METRICS.(gpuUtilizationPercent := Some(x))) <==> 0.0 <= x <= 100.0
    ensures ValidMetrics(NO_METRICS.(gpuMemoryUsedPercent := Some(x))) <==> 0.0 <= x <= 100.0
    ensures ValidMetrics(NO_METRICS.(gpuMemoryTotalBytes := Some(n))) <==> n >= 1
    ensures ValidMetrics(NO_METRICS.(temperatureCelsius := Some(x))) <==> x >= 0.0
    ensures ValidMetrics(NO_METRICS.(powerWatts := Some(x))) <==> x >= 0.0
    ensures ValidMetrics(NO_METRICS.(xidCode := Some(n))) <==> n >= 0
    ensures ValidMetrics(NO_METRICS.(health := Some(n))) <==> n == 0 || n == 1
    ensures ValidMetrics(NO_METRICS.(eccDbeTotal := Some(n))) <==> n >= 0
    ensures ValidMetrics(NO_METRICS.(powerViolationTotal := Some(n))) <==> n >= 0
    ensures ValidMetrics(NO_METRICS.(pcieReplayTotal := Some(n))) <==> n >= 0
    ensures ValidMetrics(NO_METRICS.(throttleActive := Some(n))) <==> n == 0 || n == 1
    ensures ValidMetrics(NO_METRICS.(gpuAllocatedCount := Some(n))) <==> n >= 0
    ensures ValidMetrics(NO_METRICS.(gpuCapacity := Some(n))) <==> n >= 1
    ensures ValidMetrics(NO_METRICS.(gpuAllocatable := Some(n))) <==> n >= 0
  {
  }

  /** The range of each number and text an override may give to the fabric. */
  lemma FabricRanges(x: real, n: int, text: string)
    ensures ValidMetrics(NO_METRICS.(ibPortUp := Some(n))) <==> n == 0 || n == 1
    ensures ValidMetrics(NO_METRICS.(ibState := text)) <==>
            text == "" || text == "ACTIVE" || text == "DOWN" || text == "INIT" || text == "ARMED"
    ensures ValidMetrics(NO_METRICS.(ibPhysicalState := text)) <==>
            text == "" || text == "LINK_UP" || text == "DISABLED" || text == "POLLING"
    ensures ValidMetrics(NO_METRICS.(ibLinkRateGbps := Some(x))) <==> x > 0.0
    ensures ValidMetrics(NO_METRICS.(ibTxBytesTotal := Some(n))) <==> n >= 0
    ensures ValidMetrics(NO_METRICS.(ibRxBytesTotal := Some(n))) <==> n >= 0
    ensures ValidMetrics(NO_METRICS.(ibSymbolErrorsTotal := Some(n))) <==> n >= 0
    ensures ValidMetrics(NO_METRICS.(ibLinkErrorRecoveryTotal := Some(n))) <==> n >= 0
    ensures ValidMetrics(NO_METRICS.(ibLinkDownedTotal := Some(n))) <==> n >= 0
    ensures ValidMetrics(NO_METRICS.(ibXmitDiscardsTotal := Some(n))) <==> n >= 0
    ensures ValidMetrics(NO_METRICS.(ibXmitWaitTotal := Some(n))) <==> n >= 0
    ensures ValidMetrics(NO_METRICS.(rdmaRetriesTotal := Some(n))) <==> n >= 0
    ensures ValidMetrics(NO_METRICS.(rdmaTimeoutsTotal := Some(n))) <==> n >= 0
    ensures ValidMetrics(NO_METRICS.(fabricDelaySeconds := Some(x))) <==> x >= 0.0
  {
  }

  // ---------------------------------------------------------------------------------------------
  // The built-in staged scenario
  // ---------------------------------------------------------------------------------------------

  const SECOND := 1_000_000_000

  const WARNING := NO_METRICS.(gpuUtilizationPercent := Some(88.0), gpuMemoryUsedPercent := Some(60.0),
                               temperatureCelsius := Some(82.0), powerWatts := Some(210.0))

  const CRITICAL := NO_METRICS.(gpuUtilizationPercent := Some(62.0), gpuMemoryUsedPercent := Some(74.0),
                                temperatureCelsius := Some(96.0), powerWatts := Some(245.0),
                                throttleActive := Some(1), throttleReason := "thermal")

  function Stages(warningAt: int): seq<TimelineStep> {
    [TimelineStep("baseline", Some(0), NO_METRICS), TimelineStep("warning", Some(warningAt), WARNING),
     TimelineStep("critical", Some(60 * SECOND), CRITICAL), TimelineStep("recovery", Some(120 * SECOND), NO_METRICS)]
  }

  /** The thermal escalation, with its duration and the start of its warning phase left open. */
  function Escalation(duration: DurationText, warningAt: int): Scenario {
    Scenario("gpu-lab.io/v1alpha1", "Scenario", "thermal-escalation", duration, Targets(map[], []),
             Some(Stages(warningAt)), NO_METRICS, [])
  }

  /** The scenario as its file has it. */
  const THERMAL := Escalation(Duration(180 * SECOND), 30 * SECOND)

  lemma EscalationName()
    ensures DnsName("thermal-escalation")
  {
  }

  lemma StageIsValid(targets: Targets, warningAt: int, i: nat)
    requires i < 4 && targets.gpuIndices == []
    ensures ValidStep(targets, Stages(warningAt)[i], i)
  {
    assert TrimSpace("") == "";
    PhaseNames();
  }

  lemma PhaseNames()
    ensures PHASES[1] != "baseline" && PHASES[1] != "recovery" && PHASES[2] != "baseline" && PHASES[2] != "recovery"
    ensures PHASES[0] != "warning" && PHASES[0] != "critical" && PHASES[3] != "warning" && PHASES[3] != "critical"
  {
    assert "baseline"[0] == 'b' && "warning"[0] == 'w' && "critical"[0] == 'c' && "recovery"[0] == 'r';
  }

  lemma EscalationOrdered(warningAt: int)
    ensures Ordered(Stages(warningAt)) <==> 0 < warningAt < 60 * SECOND
  {
    var steps := Stages(warningAt);
    InTurnIsOrdered(steps);
    assert InTurn(steps, 0) && InTurn(steps, 3);
    assert InTurn(steps, 1) <==> warningAt > 0;
    assert InTurn(steps, 2) <==> 60 * SECOND > warningAt;
  }

  /** The staged scenario is accepted exactly with a warning phase strictly between its neighbours and, if it has a duration,
      one that outlasts the start of the recovery phase. */
  lemma EscalationIsValid(duration: DurationText, warningAt: int)
    ensures Valid(Escalation(duration, warningAt)) <==>
            && 0 < warningAt < 60 * SECOND
            && (duration == NoDuration || (duration.Duration? && duration.ns > 120 * SECOND))
  {
    var s := Escalation(duration, warningAt);
    EscalationName();
    EscalationOrdered(warningAt);
    forall i | 0 <= i < 4
      ensures ValidStep(s.targets, Steps(s)[i], i)
    {
      StageIsValid(s.targets, warningAt, i);
    }
  }

  lemma ThermalIsValid()
    ensures Valid(THERMAL)
  {
    EscalationIsValid(Duration(180 * SECOND), 30 * SECOND);
  }

  /** What one GPU of the staged scenario shows `elapsed` after its start. */
  function StagedReading(node: string, i: nat, elapsed: int): E.Reading {
    if 30 * SECOND <= elapsed < 60 * SECOND then
      E.Reading(node, i, 88.0, 10_307_921_510, 17_179_869_184, 82.0, 210.0, 0, 1, 0, 0, 0, 0, "none", 0)
    else if 60 * SECOND <= elapsed < 120 * SECOND then
      E.Reading(node, i, 62.0, 12_713_103_196, 17_179_869_184, 96.0, 245.0, 0, 1, 0, 0, 0, 1, "thermal", 0)
    else
      E.Reading(node, i, 15.0, 3_435_973_836, 17_179_869_184, 45.0, 80.0, 0, 1, 0, 0, 0, 0, "none", 0)
  }

  function StagedPhase(elapsed: int): string {
    if elapsed < 30 * SECOND then "baseline"
    else if elapsed < 60 * SECOND then "warning"
    else if elapsed < 120 * SECOND then "critical"
    else "recovery"
  }

  lemma StagedMetricsShow(r: E.Reading, node: string, i: nat, k: nat, elapsed: int)
    requires k < 4 && V.InForce(Stages(30 * SECOND), k, elapsed)
    requires V.ShowsMetrics(r, Stages(30 * SECOND)[k].metrics) && r.node == node && r.index == i && r.reserved == 0
    ensures r == StagedReading(node, i, elapsed)
  {
    assert 17_179_869_184 as real * 20.0 / 100.0 == 3_435_973_836.8;
    assert 17_179_869_184 as real * 60.0 / 100.0 == 10_307_921_510.4;
    assert 17_179_869_184 as real * 74.0 / 100.0 == 12_713_103_196.16;
  }

  lemma StagedPhaseNamed(k: nat, elapsed: int)
    requires k < 4 && V.InForce(Stages(30 * SECOND), k, elapsed)
    ensures Stages(30 * SECOND)[k].phase == StagedPhase(elapsed)
  {
  }

  lemma StagedFabric(f: E.FabricReading, k: nat)
    requires k < 4 && V.ShowsFabric(f, Stages(30 * SECOND)[k].metrics)
    ensures f == E.FabricReading(1, "ACTIVE", "LINK_UP", 200.0, 0, 0, 0, 0, 0, 0, 0, 0, 0, 0.0)
  {
  }

  lemma StagedShows(shown: E.Shown, k: nat, elapsed: int)
    requires V.InForce(Stages(30 * SECOND), k, elapsed) && shown.phase == Stages(30 * SECOND)[k].phase
    requires V.ShowsOn(shown, THERMAL, Stages(30 * SECOND)[k].metrics)
    ensures shown.phase == StagedPhase(elapsed)
    ensures forall i | 0 <= i < |shown.readings| :: shown.readings[i] == StagedReading(shown.node, i, elapsed)
    ensures shown.fabric == E.FabricReading(1, "ACTIVE", "LINK_UP", 200.0, 0, 0, 0, 0, 0, 0, 0, 0, 0, 0.0)
  {
    StagedPhaseNamed(k, elapsed);
    StagedFabric(shown.fabric, k);
    forall i | 0 <= i < |shown.readings|
      ensures shown.readings[i] == StagedReading(shown.node, i, elapsed)
    {
      StagedMetricsShow(shown.readings[i], shown.node, i, k, elapsed);
    }
  }

  lemma StageSeen(a: E.Applied, times: seq<nat>) returns (shown: E.Shown, k: nat)
    requires a.scenario == THERMAL && times != [] && forall i | 0 <= i < |times| :: times[i] - a.startedAt < 180 * SECOND
    ensures shown == E.Show(E.RefreshedBy(E.Fresh(a), times))
    ensures V.InForce(Stages(30 * SECOND), k, times[|times| - 1] - a.startedAt)
    ensures shown.phase == Stages(30 * SECOND)[k].phase && V.ShowsOn(shown, THERMAL, Stages(30 * SECOND)[k].metrics)
    ensures shown.node == a.node && |shown.readings| == a.gpuCount
    ensures shown.scenario == "thermal-escalation" && shown.fault == ""
  {
    ThermalIsValid();
    V.MatchedShows(a, times);
    shown := E.Show(E.RefreshedBy(E.Fresh(a), times));
    k :| V.InForce(Stages(30 * SECOND), k, times[|times| - 1] - a.startedAt)
         && shown.phase == Stages(30 * SECOND)[k].phase && V.ShowsOn(shown, THERMAL, Stages(30 * SECOND)[k].metrics);
  }

  /** The staged scenario on any node, under any clock, as long as no observation is three minutes or more after its start:
      the phase and all readings are those of the time elapsed. After such an observation nothing of it is left. */
  lemma ThermalShows(a: E.Applied, times: seq<nat>)
    requires a.scenario == THERMAL && times != []
    ensures var shown, elapsed := E.Show(E.RefreshedBy(E.Fresh(a), times)), times[|times| - 1] - a.startedAt;
            if forall i | 0 <= i < |times| :: times[i] - a.startedAt < 180 * SECOND then
              && shown.scenario == "thermal-escalation" && shown.phase == StagedPhase(elapsed) && shown.fault == ""
              && |shown.readings| == a.gpuCount
              && (forall i | 0 <= i < a.gpuCount :: shown.readings[i] == StagedReading(a.node, i, elapsed))
              && shown.fabric == E.FabricReading(1, "ACTIVE", "LINK_UP", 200.0, 0, 0, 0, 0, 0, 0, 0, 0, 0, 0.0)
            else V.ShowsBaseline(shown, a)
  {
    if forall i | 0 <= i < |times| :: times[i] - a.startedAt < 180 * SECOND {
      var shown, k := StageSeen(a, times);
      StagedShows(shown, k, times[|times| - 1] - a.startedAt);
    } else {
      ThermalIsValid();
      V.OthersShowBaseline(a, times);
    }
  }

  // ---------------------------------------------------------------------------------------------
  // Rejected neighbours
  // ---------------------------------------------------------------------------------------------

  function WithStep(i: nat, step: TimelineStep): Scenario
    requires i < 4
  {
    THERMAL.(timeline := Some(Stages(30 * SECOND)[i := step]))
  }

  /** Nothing beside the four phases, each in its place, with an offset, with metrics exactly in the middle two, and none
      of them of the fabric. */
  lemma StagedNeighbours(i: nat, step: TimelineStep, a: Action, m: Metrics)
    requires i < 4 && m != NO_METRICS
    ensures !Valid(THERMAL.(timeline := Some([]))) && !Valid(THERMAL.(metrics := m)) && !Valid(THERMAL.(actions := [a]))
    ensures !Valid(THERMAL.(timeline := Some(Stages(30 * SECOND)[..3])))
    ensures !Valid(THERMAL.(duration := BlankDuration)) && !Valid(THERMAL.(duration := BadDuration))
    ensures Valid(WithStep(i, step)) ==> step.phase == ["baseline", "warning", "critical", "recovery"][i] && step.at.Some?
    ensures Valid(WithStep(i, step)) ==> (step.metrics == NO_METRICS <==> i == 0 || i == 3)
    ensures Valid(WithStep(i, step)) ==> step.metrics.ibPortUp.None? && step.metrics.fabricDelaySeconds.None?
  {
    PhaseNames();
    if Valid(WithStep(i, step)) {
      assert Steps(WithStep(i, step))[i] == step && ValidStep(THERMAL.targets, step, i);
    }
  }

  // ---------------------------------------------------------------------------------------------
  // Names, actions and targets
  // ---------------------------------------------------------------------------------------------

  /** With nothing else in it, a scenario is accepted exactly with a name of lower-case letters, digits and inner dashes. */
  lemma NamesExactly(name: string)
    ensures Valid(E.NORMAL.(name := name)) <==>
            && name != "" && name[0] != '-' && name[|name| - 1] != '-'
            && forall i | 0 <= i < |name| :: 'a' <= name[i] <= 'z' || '0' <= name[i] <= '9' || name[i] == '-'
  {
  }

  /** A scenario says what it is, and its selector has no blank text in it. */
  lemma IdentityAndLabels(s: Scenario, key: string, value: string)
    ensures Valid(s) ==> s.apiVersion == "gpu-lab.io/v1alpha1" && s.kind == "Scenario"
    ensures Valid(E.NORMAL.(targets := Targets(map[key := value], []))) <==> !Blank(key) && !Blank(value)
  {
    NormalName();
    var selector := map[key := value];
    assert selector[key] == value;
  }

  lemma NormalName()
    ensures DnsName("normal")
  {
  }

  /** The actions a scenario may have; a fault of the exporter is none that individual GPUs can have. */
  lemma ActionsExactly(a: Action, indices: seq<int>)
    requires DistinctNonNegative(indices)
    ensures Valid(E.NORMAL.(targets := Targets(map[], indices), actions := [a])) <==>
            || (a.kind == "exporter_fault" && a.mode == "unavailable" && indices == [])
            || (a.kind == "create_pending_workload" && a.gpuCount >= 1)
            || (a.kind == "create_gpu_workload" && a.gpuCount >= 1 && DnsName(a.name)
                && forall key | key in a.nodeSelector :: !Blank(key) && !Blank(a.nodeSelector[key]))
  {
    NormalName();
    KindsDiffer(a.kind);
    assert TrimSpace("") == "";
    assert ValidMetrics(NO_METRICS) && MetricsFitTargets(Targets(map[], indices), NO_METRICS);
    var s := E.NORMAL.(targets := Targets(map[], indices), actions := [a]);
    assert Valid(s) <==> ValidAction(s.targets, s.actions[0]);
  }

  lemma KindsDiffer(kind: string)
    ensures kind == "exporter_fault" ==> kind != "create_pending_workload" && kind != "create_gpu_workload"
    ensures kind == "create_pending_workload" ==> kind != "create_gpu_workload"
  {
    assert |"exporter_fault"| == 14 && |"create_pending_workload"| == 23 && |"create_gpu_workload"| == 19;
  }

  /** Individual GPUs can have any metric of a GPU, but neither the node's capacity nor its fabric. */
  lemma IndexedMetrics(m: Metrics, indices: seq<int>)
    requires indices != []
    ensures MetricsFitTargets(Targets(map[], indices), m) <==>
            m == m.(gpuCapacity := None, gpuAllocatable := None, ibPortUp := None, ibLinkRateGbps := None,
                    ibTxBytesTotal := None, ibRxBytesTotal := None, ibSymbolErrorsTotal := None,
                    ibLinkErrorRecoveryTotal := None, ibLinkDownedTotal := None, ibXmitDiscardsTotal := None,
                    ibXmitWaitTotal := None, rdmaRetriesTotal := None, rdmaTimeoutsTotal := None,
                    fabricDelaySeconds := None)
            && Blank(m.ibState) && Blank(m.ibPhysicalState)
  {
  }
}
