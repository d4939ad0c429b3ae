/** Scenarios: their data, their validation, and which timeline phase is active when. Durations are nanoseconds, and a
    duration text is modelled by what parsing it gives. */
module Scenarios {
  import opened Prelude
  import opened Text

  /** Metric overrides; an absent number leaves the baseline, and so does an empty text. */
  datatype Metrics = Metrics(
    gpuUtilizationPercent: Option<real>,
    gpuMemoryUsedPercent: Option<real>,
    gpuMemoryTotalBytes: Option<int>,
    temperatureCelsius: Option<real>,
    powerWatts: Option<real>,
    xidCode: Option<int>,
    health: Option<int>,
    eccDbeTotal: Option<int>,
    powerViolationTotal: Option<int>,
    pcieReplayTotal: Option<int>,
    throttleActive: Option<int>,
    throttleReason: string,
    gpuAllocatedCount: Option<int>,
    gpuCapacity: Option<int>,
    gpuAllocatable: Option<int>,
    ibPortUp: Option<int>,
    ibState: string,
    ibPhysicalState: string,
    ibLinkRateGbps: Option<real>,
    ibTxBytesTotal: Option<int>,
    ibRxBytesTotal: Option<int>,
    ibSymbolErrorsTotal: Option<int>,
    ibLinkErrorRecoveryTotal: Option<int>,
    ibLinkDownedTotal: Option<int>,
    ibXmitDiscardsTotal: Option<int>,
    ibXmitWaitTotal: Option<int>,
    rdmaRetriesTotal: Option<int>,
    rdmaTimeoutsTotal: Option<int>,
    fabricDelaySeconds: Option<real>)

  const NO_METRICS := Metrics(None, None, None, None, None, None, None, None, None, None, None, "", None, None, None,
                              None, "", "", None, None, None, None, None, None, None, None, None, None, None)

  /** One phase; `at` is its offset, or nothing if its text is not a duration. */
  datatype TimelineStep = TimelineStep(phase: string, at: Option<int>, metrics: Metrics)

  datatype Targets = Targets(selector: map<string, string>, gpuIndices: seq<int>)

  datatype Action = Action(kind: string, name: string, mode: string, gpuCount: int, nodeSelector: map<string, string>)

  /** A duration text: empty, only white space, not a duration, or a duration. */
  datatype DurationText = NoDuration | BlankDuration | BadDuration | Duration(ns: int)

  /** A scenario; a timeline that is absent differs from one that is empty. */
  datatype Scenario = Scenario(
    apiVersion: string,
    kind: string,
    name: string,
    duration: DurationText,
    targets: Targets,
    timeline: Option<seq<TimelineStep>>,
    metrics: Metrics,
    actions: seq<Action>)

  function Steps(s: Scenario): seq<TimelineStep> {
    if s.timeline.Some? then s.timeline.value else []
  }

  // ---------------------------------------------------------------------------------------------
  // Metric ranges
  // ---------------------------------------------------------------------------------------------

  predicate HasFabricOverrides(m: Metrics) {
    || m.ibPortUp.Some? || TrimSpace(m.ibState) != "" || TrimSpace(m.ibPhysicalState) != ""
    || m.ibLinkRateGbps.Some? || m.ibTxBytesTotal.Some? || m.ibRxBytesTotal.Some? || m.ibSymbolErrorsTotal.Some?
    || m.ibLinkErrorRecoveryTotal.Some? || m.ibLinkDownedTotal.Some? || m.ibXmitDiscardsTotal.Some?
    || m.ibXmitWaitTotal.Some? || m.rdmaRetriesTotal.Some? || m.rdmaTimeoutsTotal.Some? || m.fabricDelaySeconds.Some?
  }

  predicate ValidIBState(value: string) {
    value == "ACTIVE" || value == "DOWN" || value == "INIT" || value == "ARMED"
  }

  predicate ValidIBPhysicalState(value: string) {
    value == "LINK_UP" || value == "DISABLED" || value == "POLLING"
  }

  predicate NonNegative(value: Option<int>) {
    value.Some? ==> value.value >= 0
  }

  predicate Flag(value: Option<int>) {
    value.Some? ==> value.value == 0 || value.value == 1
  }

  predicate Percent(value: Option<real>) {
    value.Some? ==> 0.0 <= value.value <= 100.0
  }

  predicate ValidMetrics(m: Metrics) {
    && Percent(m.gpuUtilizationPercent) && Percent(m.gpuMemoryUsedPercent)
    && (m.gpuMemoryTotalBytes.Some? ==> m.gpuMemoryTotalBytes.value > 0)
    && (m.temperatureCelsius.Some? ==> m.temperatureCelsius.value >= 0.0)
    && (m.powerWatts.Some? ==> m.powerWatts.value >= 0.0)
    && NonNegative(m.xidCode) && Flag(m.health) && NonNegative(m.eccDbeTotal)
    && NonNegative(m.powerViolationTotal) && NonNegative(m.pcieReplayTotal) && Flag(m.throttleActive)
    && NonNegative(m.gpuAllocatedCount) && (m.gpuCapacity.Some? ==> m.gpuCapacity.value > 0)
    && NonNegative(m.gpuAllocatable) && Flag(m.ibPortUp)
    && (m.ibState != "" ==> ValidIBState(m.ibState))
    && (m.ibPhysicalState != "" ==> ValidIBPhysicalState(m.ibPhysicalState))
    && (m.ibLinkRateGbps.Some? ==> m.ibLinkRateGbps.value > 0.0)
    && NonNegative(m.ibTxBytesTotal) && NonNegative(m.ibRxBytesTotal) && NonNegative(m.ibSymbolErrorsTotal)
    && NonNegative(m.ibLinkErrorRecoveryTotal) && NonNegative(m.ibLinkDownedTotal)
    && NonNegative(m.ibXmitDiscardsTotal) && NonNegative(m.ibXmitWaitTotal)
    && NonNegative(m.rdmaRetriesTotal) && NonNegative(m.rdmaTimeoutsTotal)
    && (m.fabricDelaySeconds.Some? ==> m.fabricDelaySeconds.value >= 0.0)
  }

  /** Capacity and fabric overrides are node-wide and cannot go with individual GPUs. */
  predicate MetricsFitTargets(targets: Targets, m: Metrics) {
    targets.gpuIndices != [] ==> m.gpuCapacity.None? && m.gpuAllocatable.None? && !HasFabricOverrides(m)
  }

  // ---------------------------------------------------------------------------------------------
  // Targets
  // ---------------------------------------------------------------------------------------------

  predicate NoBlankEntry(selector: map<string, string>) {
    forall key | key in selector :: !Blank(key) && !Blank(selector[key])
  }

  predicate DistinctNonNegative(indices: seq<int>) {
    && (forall i | 0 <= i < |indices| :: indices[i] >= 0)
    && (forall i, j | 0 <= i < j < |indices| :: indices[i] != indices[j])
  }

  predicate ValidTargets(t: Targets) {
    NoBlankEntry(t.selector) && DistinctNonNegative(t.gpuIndices)
  }

  method CheckTargets(t: Targets) returns (ok: bool)
    ensures ok <==> ValidTargets(t)
  {
    if !NoBlankEntry(t.selector) {
      return false;
    }
    ok := CheckIndices(t.gpuIndices);
  }

  /** Duplicates are found with a set of the indices seen. */
  method CheckIndices(indices: seq<int>) returns (ok: bool)
    ensures ok <==> DistinctNonNegative(indices)
  {
    var seen: set<int> := {};
    for i := 0 to |indices|
      invariant forall k | 0 <= k < i :: indices[k] >= 0 && indices[k] in seen
      invariant forall x | x in seen :: exists k :: 0 <= k < i && indices[k] == x
      invariant forall j, k | 0 <= j < k < i :: indices[j] != indices[k]
    {
      if indices[i] < 0 || indices[i] in seen {
        return false;
      }
      seen := seen + {indices[i]};
    }
    return true;
  }

  // ---------------------------------------------------------------------------------------------
  // Timelines
  // ---------------------------------------------------------------------------------------------

  const PHASES := ["baseline", "warning", "critical", "recovery"]

  predicate ValidStepMetrics(targets: Targets, step: TimelineStep) {
    && (step.phase == "baseline" || step.phase == "recovery" ==> step.metrics == NO_METRICS)
    && (step.phase == "warning" || step.phase == "critical" ==> step.metrics != NO_METRICS)
    && !HasFabricOverrides(step.metrics) && ValidMetrics(step.metrics) && MetricsFitTargets(targets, step.metrics)
  }

  function Offset(step: TimelineStep): int {
    if step.at.Some? then step.at.value else 0
  }

  /** Offsets that start at zero and strictly increase. */
  ghost predicate Ordered(steps: seq<TimelineStep>) {
    && (forall i | 0 <= i < |steps| :: steps[i].at.Some?)
    && (steps != [] ==> Offset(steps[0]) == 0)
    && (forall i, j | 0 <= i < j < |steps| :: Offset(steps[i]) < Offset(steps[j]))
  }

  /** The staged-scenario contract; `duration` is zero for a scenario without one. */
  ghost predicate ValidTimeline(s: Scenario, duration: int) {
    var steps := Steps(s);
    && |steps| == 4 && s.metrics == NO_METRICS && s.actions == []
    && Ordered(steps)
    && (forall i | 0 <= i < 4 :: ValidStep(s.targets, steps[i], i))
    && (duration > 0 ==> duration > Offset(steps[3]))
  }

  predicate ValidStep(targets: Targets, step: TimelineStep, i: int) {
    0 <= i < 4 && step.phase == PHASES[i] && ValidStepMetrics(targets, step)
  }

  /** What one turn of the check sees: the step's offset against the previous one. */
  predicate InTurn(steps: seq<TimelineStep>, i: nat)
    requires i < |steps|
  {
    steps[i].at.Some? && if i == 0 then Offset(steps[i]) == 0 else Offset(steps[i]) > Offset(steps[i - 1])
  }

  /** Comparing each offset with its predecessor is enough. */
  lemma {:induction false} InTurnIsOrdered(steps: seq<TimelineStep>)
    ensures Ordered(steps) <==> forall i | 0 <= i < |steps| :: InTurn(steps, i)
  {
    if (forall i | 0 <= i < |steps| :: InTurn(steps, i)) && steps != [] {
      var front := steps[..|steps| - 1];
      forall i | 0 <= i < |front|
        ensures InTurn(front, i)
      {
        assert InTurn(steps, i);
      }
      InTurnIsOrdered(front);
      assert InTurn(steps, |steps| - 1);
      forall i, j | 0 <= i < j < |steps|
        ensures Offset(steps[i]) < Offset(steps[j])
      {
        if j == |steps| - 1 {
          assert i < |front| - 1 ==> Offset(front[i]) < Offset(front[|front| - 1]);
        } else {
          assert Offset(front[i]) < Offset(front[j]);
        }
      }
      forall i | 0 <= i < |steps|
        ensures steps[i].at.Some?
      {
        assert InTurn(steps, i);
      }
      assert InTurn(steps, 0);
    }
  }

  predicate StepFits(targets: Targets, steps: seq<TimelineStep>, i: nat)
    requires i < |steps|
  {
    InTurn(steps, i) && ValidStep(targets, steps[i], i)
  }

  /** One turn at a time is enough for the whole contract. */
  lemma AllStepsFit(s: Scenario, duration: int)
    requires |Steps(s)| == 4 && s.metrics == NO_METRICS && s.actions == []
    ensures ValidTimeline(s, duration) <==>
              && (forall i | 0 <= i < 4 :: StepFits(s.targets, Steps(s), i))
              && !(duration > 0 && duration <= Offset(Steps(s)[3]))
  {
    var steps := Steps(s);
    InTurnIsOrdered(steps);
    if forall i | 0 <= i < 4 :: StepFits(s.targets, steps, i) {
      forall i | 0 <= i < 4
        ensures InTurn(steps, i) && ValidStep(s.targets, steps[i], i)
      {
        assert StepFits(s.targets, steps, i);
      }
    }
  }

  method CheckTimeline(s: Scenario, duration: int) returns (ok: bool)
    ensures ok <==> ValidTimeline(s, duration)
  {
    var steps := Steps(s);
    if |steps| != 4 || s.metrics != NO_METRICS || |s.actions| > 0 {
      return false;
    }
    var last;
    ok, last := CheckSteps(s.targets, steps);
    AllStepsFit(s, duration);
    return ok && !(duration > 0 && duration <= last);
  }

  /** The loop over the steps. */
  method CheckSteps(targets: Targets, steps: seq<TimelineStep>) returns (ok: bool, previous: int)
    requires |steps| == 4
    ensures ok <==> forall i | 0 <= i < 4 :: StepFits(targets, steps, i)
    ensures ok ==> previous == Offset(steps[3])
  {
    ok, previous := true, 0;
    for i := 0 to 4
      invariant i > 0 ==> previous == Offset(steps[i - 1])
      invariant ok && forall k | 0 <= k < i :: StepFits(targets, steps, k)
    {
      ok, previous := CheckStep(targets, steps, i, previous);
      if !ok {
        return;
      }
    }
  }

  /** One turn of that loop. */
  method CheckStep(targets: Targets, steps: seq<TimelineStep>, i: nat, previous: int) returns (ok: bool, offset: int)
    requires i < 4 == |steps| && (i > 0 ==> previous == Offset(steps[i - 1]))
    ensures ok <==> StepFits(targets, steps, i)
    ensures ok ==> offset == Offset(steps[i])
  {
    var step := steps[i];
    if step.phase != PHASES[i] || step.at.None? {
      return false, 0;
    }
    offset := step.at.value;
    if i == 0 {
      if offset != 0 {
        return false, offset;
      }
    } else if offset <= previous {
      return false, offset;
    }
    ok := ValidStepMetrics(targets, step);
  }

  // ---------------------------------------------------------------------------------------------
  // Whole documents
  // ---------------------------------------------------------------------------------------------

  predicate AlphaNum(c: char) {
    'a' <= c <= 'z' || '0' <= c <= '9'
  }

  predicate DnsName(name: string) {
    && name != "" && AlphaNum(name[0]) && AlphaNum(name[|name| - 1])
    && forall i | 0 <= i < |name| :: AlphaNum(name[i]) || name[i] == '-'
  }

  predicate ValidAction(targets: Targets, a: Action) {
    if a.kind == "exporter_fault" then targets.gpuIndices == [] && a.mode == "unavailable"
    else if a.kind == "create_pending_workload" then a.gpuCount > 0
    else && a.kind == "create_gpu_workload" && DnsName(a.name) && a.gpuCount > 0
         && NoBlankEntry(a.nodeSelector)
  }

  function DurationOf(s: Scenario): int {
    if s.duration.Duration? then s.duration.ns else 0
  }

  ghost predicate Valid(s: Scenario) {
    && s.apiVersion == "gpu-lab.io/v1alpha1" && s.kind == "Scenario" && DnsName(s.name)
    && (s.duration == NoDuration || (s.duration.Duration? && s.duration.ns > 0))
    && ValidTargets(s.targets)
    && (s.timeline.Some? ==> ValidTimeline(s, DurationOf(s)))
    && ValidMetrics(s.metrics) && MetricsFitTargets(s.targets, s.metrics)
    && forall i | 0 <= i < |s.actions| :: ValidAction(s.targets, s.actions[i])
  }

  method Validate(s: Scenario) returns (ok: bool)
    ensures ok <==> Valid(s)
  {
    if s.apiVersion != "gpu-lab.io/v1alpha1" || s.kind != "Scenario" || !DnsName(s.name) {
      return false;
    }
    var duration := 0;
    if s.duration != NoDuration {
      if !s.duration.Duration? || s.duration.ns <= 0 {
        return false;
      }
      duration := s.duration.ns;
    }
    ok := CheckTargets(s.targets);
    if !ok {
      return;
    }
    if s.timeline.Some? {
      ok := CheckTimeline(s, duration);
      if !ok {
        return;
      }
    }
    if !ValidMetrics(s.metrics) || !MetricsFitTargets(s.targets, s.metrics) {
      return false;
    }
    for i := 0 to |s.actions|
      invariant forall k | 0 <= k < i :: ValidAction(s.targets, s.actions[k])
    {
      if !ValidAction(s.targets, s.actions[i]) {
        return false;
      }
    }
    return true;
  }

  // ---------------------------------------------------------------------------------------------
  // The active phase
  // ---------------------------------------------------------------------------------------------

  /** How many leading offsets have been reached. */
  function Reached(offsets: seq<int>, elapsed: int): (n: nat)
    ensures n <= |offsets|
    ensures forall i | 0 <= i < n :: offsets[i] <= elapsed
    ensures n < |offsets| ==> elapsed < offsets[n]
  {
    if offsets == [] || elapsed < offsets[0] then 0 else 1 + Reached(offsets[1..], elapsed)
  }

  predicate AllParsed(steps: seq<TimelineStep>) {
    forall i | 0 <= i < |steps| :: steps[i].at.Some?
  }

  function Offsets(steps: seq<TimelineStep>): (offsets: seq<int>)
    ensures |offsets| == |steps| && forall i | 0 <= i < |steps| :: offsets[i] == Offset(steps[i])
  {
    seq(|steps|, i requires 0 <= i < |steps| => Offset(steps[i]))
  }

  /** The index of the active step; none for an empty or malformed timeline, or before the first offset. */
  function PhaseIndex(steps: seq<TimelineStep>, elapsed: int): (r: Option<nat>)
    ensures r.Some? ==> r.value < |steps|
  {
    if steps == [] || !AllParsed(steps) then None
    else
      var n := Reached(Offsets(steps), Max(elapsed, 0));
      if n == 0 then None else Some(n - 1)
  }

  method PhaseAt(timeline: seq<TimelineStep>, elapsed: int) returns (step: Option<TimelineStep>, index: int)
    ensures PhaseIndex(timeline, elapsed).None? ==> step == None && index == -1
    ensures PhaseIndex(timeline, elapsed).Some? ==>
              index == PhaseIndex(timeline, elapsed).value && step == Some(timeline[index])
  {
    if |timeline| == 0 {
      return None, -1;
    }
    var offsets := ParseOffsets(timeline);
    if offsets.None? {
      return None, -1;
    }
    var active := LastReached(offsets.value, if elapsed < 0 then 0 else elapsed);
    if active < 0 {
      return None, -1;
    }
    return Some(timeline[active]), active;
  }

  method ParseOffsets(timeline: seq<TimelineStep>) returns (offsets: Option<seq<int>>)
    ensures offsets == if AllParsed(timeline) then Some(Offsets(timeline)) else None
  {
    var parsed: seq<int> := [];
    for i := 0 to |timeline|
      invariant |parsed| == i
      invariant forall k | 0 <= k < i :: timeline[k].at == Some(parsed[k])
    {
      if timeline[i].at.None? {
        return None;
      }
      parsed := parsed + [timeline[i].at.value];
    }
    assert parsed == Offsets(timeline);
    return Some(parsed);
  }

  method LastReached(offsets: seq<int>, elapsed: int) returns (active: int)
    ensures active == Reached(offsets, elapsed) - 1
  {
    active := -1;
    var i := 0;
    while i < |offsets| && !(elapsed < offsets[i])
      invariant 0 <= i <= |offsets| && active == i - 1
      invariant forall k | 0 <= k < i :: offsets[k] <= elapsed
    {
      active := i;
      i := i + 1;
    }
    ReachedIs(offsets, elapsed, i);
  }

  /** The first offset not reached tells how many were. */
  lemma {:induction false} ReachedIs(offsets: seq<int>, elapsed: int, n: nat)
    requires n <= |offsets| && (forall i | 0 <= i < n :: offsets[i] <= elapsed)
    requires n < |offsets| ==> elapsed < offsets[n]
    ensures Reached(offsets, elapsed) == n
  {
    if n > 0 {
      ReachedIs(offsets[1..], elapsed, n - 1);
    }
  }

  /** On a validated timeline a phase is always active, and it is the last one whose offset is not in the future;
      an index is the active one exactly when it has that property. */
  lemma PhaseIsLastReached(steps: seq<TimelineStep>, elapsed: int, i: nat)
    requires Ordered(steps) && i < |steps|
    ensures PhaseIndex(steps, elapsed).Some?
    ensures PhaseIndex(steps, elapsed) == Some(i) <==>
              && Offset(steps[i]) <= Max(elapsed, 0)
              && forall j | i < j < |steps| :: Max(elapsed, 0) < Offset(steps[j])
  {
    var now := Max(elapsed, 0);
    var n := Reached(Offsets(steps), now);
    assert Offsets(steps)[0] == 0;
    if Offset(steps[i]) <= now && forall j | i < j < |steps| :: now < Offset(steps[j]) {
      assert n > i;
      assert i + 1 < |steps| ==> now < Offsets(steps)[i + 1];
    }
  }

  /** The active phase never goes back. */
  lemma PhaseIsMonotone(steps: seq<TimelineStep>, earlier: int, later: int)
    requires Ordered(steps) && steps != [] && earlier <= later
    ensures PhaseIndex(steps, earlier).Some? && PhaseIndex(steps, later).Some?
    ensures PhaseIndex(steps, earlier).value <= PhaseIndex(steps, later).value
  {
    PhaseIsLastReached(steps, earlier, 0);
    PhaseIsLastReached(steps, later, 0);
    var i, j := PhaseIndex(steps, earlier).value, PhaseIndex(steps, later).value;
    PhaseIsLastReached(steps, earlier, i);
    PhaseIsLastReached(steps, later, j);
  }

  /** Every phase of a validated timeline is the active one at its own offset, and the recovery phase begins strictly
      before a scenario with a duration ends. */
  lemma EveryPhaseOccurs(s: Scenario, i: nat)
    requires Valid(s) && s.timeline.Some? && i < 4
    ensures PhaseIndex(Steps(s), Offset(Steps(s)[i])) == Some(i) && Steps(s)[i].phase == PHASES[i]
    ensures 0 <= Offset(Steps(s)[i])
    ensures s.duration.Duration? ==> Offset(Steps(s)[i]) < s.duration.ns
  {
    var steps := Steps(s);
    assert Offset(steps[0]) == 0 && Offset(steps[i]) >= 0 && Offset(steps[i]) <= Offset(steps[3]);
    PhaseIsLastReached(steps, Offset(steps[i]), i);
  }
}
