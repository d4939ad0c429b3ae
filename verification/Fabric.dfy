/** The fabric side of a worker: which faults a control injects into it, whom they target, and the wait while the fabric
    is down. */
module Fabric {
  import opened Prelude
  import opened Text
  import C = ControlDocument
  import E = Exporters
  import S = Scenarios

  // ---------------------------------------------------------------------------------------------
  // Modes and targets
  // ---------------------------------------------------------------------------------------------

  predicate FaultMode(mode: string) {
    mode == "down" || mode == "degraded" || mode == "errors" || mode == "retries" || mode == "congestion"
  }

  /** A mode the worker does not know counts as normal. */
  function EffectiveMode(control: C.Control): string {
    var mode := ToLower(TrimSpace(control.fabricMode));
    if FaultMode(mode) then mode else "normal"
  }

  /** The cluster's node behind a synthetic node id. */
  const CLUSTER_NODES := map["gpu-node-01" := "gpu-lab-worker", "gpu-node-02" := "gpu-lab-worker2",
                             "gpu-node-03" := "gpu-lab-worker3"]

  predicate Aliased(target: string, node: string) {
    if target in CLUSTER_NODES then CLUSTER_NODES[target] == node
    else exists id | id in CLUSTER_NODES :: CLUSTER_NODES[id] == target && id == node
  }

  predicate TargetMatches(target: string, node: string) {
    var t, n := TrimSpace(target), TrimSpace(node);
    t != "" && n != "" && (t == n || Aliased(t, n))
  }

  /** A cluster node's name and its synthetic id are different texts. */
  lemma IdsAreNotNames(name: string)
    ensures "gpu-node-" <= name ==> name != "gpu-lab-worker" && name != "gpu-lab-worker2" && name != "gpu-lab-worker3"
    ensures name in CLUSTER_NODES ==> "gpu-node-" <= name
  {
    if "gpu-node-" <= name {
      assert name[4] == "gpu-node-"[4] == 'n';
      assert "gpu-lab-worker"[4] == "gpu-lab-worker2"[4] == "gpu-lab-worker3"[4] == 'l';
    }
  }

  /** The synthetic id of a name: an id is its own, and a cluster node's is the id that stands for it. */
  lemma SyntheticIds(name: string)
    ensures name in CLUSTER_NODES ==> E.SyntheticNodeId(name) == name
    ensures forall id | id in CLUSTER_NODES && CLUSTER_NODES[id] == name :: E.SyntheticNodeId(name) == id
    ensures || E.SyntheticNodeId(name) == name
            || (E.SyntheticNodeId(name) in CLUSTER_NODES && CLUSTER_NODES[E.SyntheticNodeId(name)] == name)
  {
    IdsAreNotNames(name);
    assert |"gpu-lab-worker"| == 14 && |"gpu-lab-worker2"| == 15 && |"gpu-lab-worker3"| == 15;
    assert "gpu-lab-worker2"[14] == '2' && "gpu-lab-worker3"[14] == '3';
  }

  /** The worker and the exporter agree on what a node is: a fabric target means a worker's node exactly when both
      texts have the same synthetic node id, which is the id the exporter gives its own node. */
  lemma TargetIsANodeId(target: string, node: string)
    ensures TargetMatches(target, node) <==>
              && !Blank(target) && !Blank(node)
              && E.SyntheticNodeId(TrimSpace(target)) == E.SyntheticNodeId(TrimSpace(node))
  {
    var t, n := TrimSpace(target), TrimSpace(node);
    SyntheticIds(t);
    SyntheticIds(n);
  }

  /** A fabric scenario hits the worker on a node exactly when the exporter on that node is one its selector names. */
  lemma ScenarioHitsOneNode(name: string, node: string)
    requires TrimSpace(node) == node != ""
    requires C.FabricControlForScenario(name).mode != "normal"
    ensures var id := C.FabricControlForScenario(name).targetNode;
            TargetMatches(id, node) <==> E.SelectorMatches(node, map["gpu.lab/node-id" := id])
  {
    var id := C.FabricControlForScenario(name).targetNode;
    ScenarioTarget(name);
    SelectorHitsOneNode(id, node);
  }

  /** So does any target that is a synthetic node id. */
  lemma SelectorHitsOneNode(id: string, node: string)
    requires TrimSpace(node) == node != "" && TrimSpace(id) == id != "" && E.SyntheticNodeId(id) == id
    ensures TargetMatches(id, node) <==> E.SelectorMatches(node, map["gpu.lab/node-id" := id])
  {
    TargetIsANodeId(id, node);
    NodeIdLabel(node);
  }

  lemma ScenarioTarget(name: string)
    requires C.FabricControlForScenario(name).mode != "normal"
    ensures var id := C.FabricControlForScenario(name).targetNode;
            !Blank(id) && TrimSpace(id) == id && E.SyntheticNodeId(id) == id
  {
    NodeIdIsItsOwn(C.FabricControlForScenario(name).targetNode);
  }

  lemma NodeIdIsItsOwn(id: string)
    requires id in CLUSTER_NODES
    ensures !Blank(id) && TrimSpace(id) == id && E.SyntheticNodeId(id) == id
  {
    assert |id| == 11 && id[0] == 'g' && '0' <= id[10] <= '9' && "gpu-node-" <= id;
    TrimKeeps(id);
  }

  lemma NodeIdLabel(node: string)
    ensures E.LabelOf(node, "gpu.lab/node-id") == E.SyntheticNodeId(node)
  {
    assert "gpu.lab/type"[8] == 't' && "gpu.lab/node-id"[8] == 'n';
  }

  /** The built-in fabric scenarios. */
  datatype Incident = LinkDown | RateDegraded | SymbolErrors | RetryStorm | Congestion

  function NameOf(i: Incident): string {
    match i
    case LinkDown => "ib-link-down"
    case RateDegraded => "ib-rate-degraded"
    case SymbolErrors => "ib-symbol-errors"
    case RetryStorm => "rdma-retry-storm"
    case Congestion => "ib-congestion"
  }

  /** The node id in a scenario's own selector. */
  function NodeIdOf(i: Incident): string {
    match i
    case LinkDown => "gpu-node-02"
    case RateDegraded => "gpu-node-03"
    case SymbolErrors => "gpu-node-01"
    case RetryStorm => "gpu-node-02"
    case Congestion => "gpu-node-03"
  }

  function MetricsOf(i: Incident): S.Metrics {
    match i
    case LinkDown =>
      S.NO_METRICS.(ibPortUp := Some(0), ibState := "DOWN", ibPhysicalState := "DISABLED",
                    ibLinkDownedTotal := Some(1), fabricDelaySeconds := Some(0.0))
    case RateDegraded => S.NO_METRICS.(ibLinkRateGbps := Some(25.0), fabricDelaySeconds := Some(1.5))
    case SymbolErrors => S.NO_METRICS.(ibSymbolErrorsTotal := Some(128), ibLinkErrorRecoveryTotal := Some(6))
    case RetryStorm =>
      S.NO_METRICS.(rdmaRetriesTotal := Some(250), rdmaTimeoutsTotal := Some(8), fabricDelaySeconds := Some(1.0))
    case Congestion =>
      S.NO_METRICS.(ibXmitWaitTotal := Some(640), ibXmitDiscardsTotal := Some(32), fabricDelaySeconds := Some(0.8))
  }

  /** The scenario as its file has it. */
  function BuiltIn(i: Incident): S.Scenario {
    S.Scenario("gpu-lab.io/v1alpha1", "Scenario", NameOf(i), S.NoDuration,
               S.Targets(map["gpu.lab/node-id" := NodeIdOf(i)], []), None, MetricsOf(i), [])
  }

  /** The fabric mode the writer gives to a scenario. */
  function ModeOf(i: Incident): string {
    match i
    case LinkDown => "down"
    case RateDegraded => "degraded"
    case SymbolErrors => "errors"
    case RetryStorm => "retries"
    case Congestion => "congestion"
  }

  lemma LinkDownControl()
    ensures C.FabricControlForScenario("ib-link-down") == C.FabricControl("down", "gpu-node-02", "")
  {
    TrimKeeps("ib-link-down");
  }

  lemma RateDegradedControl()
    ensures C.FabricControlForScenario("ib-rate-degraded") == C.FabricControl("degraded", "gpu-node-03", "1.5s")
  {
    TrimKeeps("ib-rate-degraded");
    assert |"ib-rate-degraded"| == 16 && |"ib-link-down"| == 12;
  }

  lemma SymbolErrorsControl()
    ensures C.FabricControlForScenario("ib-symbol-errors") == C.FabricControl("errors", "gpu-node-01", "")
  {
    TrimKeeps("ib-symbol-errors");
    assert |"ib-symbol-errors"| == 16 && |"ib-link-down"| == 12;
    assert "ib-symbol-errors"[3] == 's' && "ib-rate-degraded"[3] == 'r';
  }

  lemma RetryStormControl()
    ensures C.FabricControlForScenario("rdma-retry-storm") == C.FabricControl("retries", "gpu-node-02", "1s")
  {
    TrimKeeps("rdma-retry-storm");
    assert "rdma-retry-storm"[0] == 'r';
    assert "ib-link-down"[0] == "ib-rate-degraded"[0] == "ib-symbol-errors"[0] == 'i';
  }

  lemma CongestionControl()
    ensures C.FabricControlForScenario("ib-congestion") == C.FabricControl("congestion", "gpu-node-03", "800ms")
  {
    TrimKeeps("ib-congestion");
    assert |"ib-congestion"| == 13 && |"ib-link-down"| == 12;
    assert |"ib-rate-degraded"| == |"ib-symbol-errors"| == |"rdma-retry-storm"| == 16;
  }

  lemma BuiltInControl(i: Incident)
    ensures var control := C.FabricControlForScenario(NameOf(i));
            control.mode == ModeOf(i) && control.targetNode == NodeIdOf(i)
  {
    match i
    case LinkDown => LinkDownControl();
    case RateDegraded => RateDegradedControl();
    case SymbolErrors => SymbolErrorsControl();
    case RetryStorm => RetryStormControl();
    case Congestion => CongestionControl();
  }

  lemma BuiltInDelay(i: Incident)
    ensures ModeOf(i) != "normal" && FaultMode(ModeOf(i))
    ensures DefaultDelay(ModeOf(i)) as real == E.Or(MetricsOf(i).fabricDelaySeconds, 0.0) * 1_000_000_000.0
  {
    assert |"degraded"| == 8 && |"congestion"| == 10 && |"retries"| == 7 && |"errors"| == |"normal"| == 6 && |"down"| == 4;
    assert "errors"[0] == 'e' && "normal"[0] == 'n';
  }

  /** Every built-in fabric scenario faults the worker on exactly the nodes whose exporter its own selector names, and the
      delay it gives that exporter is the one the worker falls back on. */
  lemma BuiltInScenariosAgree(i: Incident, node: string)
    requires TrimSpace(node) == node != ""
    ensures var s, control := BuiltIn(i), C.FabricControlForScenario(BuiltIn(i).name);
            && FaultMode(control.mode)
            && (TargetMatches(control.targetNode, node) <==> E.SelectorMatches(node, s.targets.selector))
            && DefaultDelay(control.mode) as real == E.Or(s.metrics.fabricDelaySeconds, 0.0) * 1_000_000_000.0
  {
    BuiltInControl(i);
    BuiltInDelay(i);
    ScenarioHitsOneNode(NameOf(i), node);
  }

  // ---------------------------------------------------------------------------------------------
  // Applying a control, and waiting
  // ---------------------------------------------------------------------------------------------

  /** What a control does to the worker on a node; `shown` is the delay on its gauge. */
  datatype Effect = Effect(mode: string, targeted: bool, delay: int, active: bool, shown: int)

  const MILLISECOND := 1_000_000

  function DefaultDelay(mode: string): int {
    if mode == "degraded" then 1500 * MILLISECOND
    else if mode == "retries" then 1000 * MILLISECOND
    else if mode == "congestion" then 800 * MILLISECOND
    else 0
  }

  function ApplyControl(control: C.Control, node: string): Effect {
    var mode := EffectiveMode(control);
    var targeted := TargetMatches(control.fabricTargetNode, node);
    var delay := if targeted && control.fabricDelay <= 0 then DefaultDelay(mode) else control.fabricDelay;
    var active := targeted && mode != "normal";
    Effect(mode, targeted, delay, active, if active && delay > 0 then delay else 0)
  }

  /** What a wait between two polls brings: the process is cancelled, or the control is unreadable, or read. */
  datatype Poll = Cancelled | Unreadable | Read(control: C.Control)

  /** How the wait ends, after how many errors of its own; no control if it was cancelled or is still going on. */
  datatype Waited = Waited(control: Option<C.Control>, errors: nat)

  function WaitOutcome(control: C.Control, node: string, polls: seq<Poll>): Waited
    decreases |polls|
  {
    var effect := ApplyControl(control, node);
    if effect.mode != "down" then Waited(Some(control), 0)
    else
      var own := if effect.targeted then 1 else 0;
      if polls == [] || polls[0].Cancelled? then Waited(None, own)
      else Plus(WaitOutcome(Next(control, polls[0]), node, polls[1..]), own)
  }

  function Next(control: C.Control, poll: Poll): C.Control {
    if poll.Read? then poll.control else control
  }

  function Plus(w: Waited, errors: nat): Waited {
    w.(errors := w.errors + errors)
  }

  lemma OneMorePoll(control: C.Control, node: string, polls: seq<Poll>, i: nat, errors: nat)
    requires i < |polls| && !polls[i].Cancelled? && ApplyControl(control, node).mode == "down"
    ensures Plus(WaitOutcome(control, node, polls[i..]), errors) ==
            Plus(WaitOutcome(Next(control, polls[i]), node, polls[i + 1..]),
                 errors + if ApplyControl(control, node).targeted then 1 else 0)
  {
    assert polls[i..][1..] == polls[i + 1..];
  }

  method WaitForFabricRecovery(control: C.Control, node: string, polls: seq<Poll>) returns (waited: Waited)
    ensures waited == WaitOutcome(control, node, polls)
  {
    var current := control;
    var errors := 0;
    var i := 0;
    while true
      invariant 0 <= i <= |polls|
      invariant WaitOutcome(control, node, polls) == Plus(WaitOutcome(current, node, polls[i..]), errors)
      decreases |polls| - i
    {
      var effect := ApplyControl(current, node);
      if effect.mode != "down" {
        return Waited(Some(current), errors);
      }
      if i < |polls| && !polls[i].Cancelled? {
        OneMorePoll(current, node, polls, i, errors);
      }
      if effect.targeted {
        errors := errors + 1;
      }
      if i == |polls| || polls[i].Cancelled? {
        return Waited(None, errors);
      }
      current := Next(current, polls[i]);
      i := i + 1;
    }
  }

  predicate IsDown(poll: Poll) {
    poll.Unreadable? || (poll.Read? && EffectiveMode(poll.control) == "down")
  }

  /** The wait ends with the first readable control that is not down, if the process lives to see it, and with nothing
      else. */
  lemma {:induction false} WaitEndsAtFirstUp(control: C.Control, node: string, polls: seq<Poll>, k: nat)
    requires EffectiveMode(control) == "down" && k < |polls| && forall i | 0 <= i < k :: IsDown(polls[i])
    ensures polls[k].Read? && !IsDown(polls[k]) ==> WaitOutcome(control, node, polls).control == Some(polls[k].control)
    ensures polls[k].Cancelled? ==> WaitOutcome(control, node, polls).control == None
    decreases |polls|
  {
    if k > 0 {
      assert IsDown(polls[0]);
      forall i | 0 <= i < k - 1
        ensures IsDown(polls[1..][i])
      {
        assert polls[1..][i] == polls[i + 1];
      }
      WaitEndsAtFirstUp(Next(control, polls[0]), node, polls[1..], k - 1);
    }
  }

  /** The control in force at the j-th wait: the last one read by then. */
  function InForceAt(control: C.Control, polls: seq<Poll>, j: nat): C.Control
    requires j <= |polls|
  {
    if j == 0 then control else Next(InForceAt(control, polls, j - 1), polls[j - 1])
  }

  /** The waits, of the first `n`, at which the control in force targets the node. */
  function TargetedWaits(control: C.Control, node: string, polls: seq<Poll>, n: nat): nat
    requires n <= |polls|
  {
    if n == 0 then 0
    else TargetedWaits(control, node, polls, n - 1)
         + if TargetMatches(InForceAt(control, polls, n - 1).fabricTargetNode, node) then 1 else 0
  }

  lemma {:induction false} InForceLater(control: C.Control, polls: seq<Poll>, j: nat)
    requires j < |polls|
    ensures InForceAt(control, polls, j + 1) == InForceAt(Next(control, polls[0]), polls[1..], j)
  {
    if j > 0 {
      InForceLater(control, polls, j - 1);
    }
  }

  lemma {:induction false} TargetedLater(control: C.Control, node: string, polls: seq<Poll>, n: nat)
    requires n < |polls|
    ensures TargetedWaits(control, node, polls, n + 1) ==
            TargetedWaits(Next(control, polls[0]), node, polls[1..], n)
            + if TargetMatches(control.fabricTargetNode, node) then 1 else 0
  {
    if n > 0 {
      InForceLater(control, polls, n - 1);
      TargetedLater(control, node, polls, n - 1);
    }
  }

  /** A rank counts one error of its own for each wait at which it is the target, and none for the waits of others. */
  lemma {:induction false} WaitErrors(control: C.Control, node: string, polls: seq<Poll>, k: nat)
    requires EffectiveMode(control) == "down" && k < |polls| && (forall i | 0 <= i < k :: IsDown(polls[i]))
    requires !IsDown(polls[k])
    ensures WaitOutcome(control, node, polls).errors == TargetedWaits(control, node, polls, k + 1)
    decreases |polls|
  {
    TargetedLater(control, node, polls, k);
    if k > 0 {
      assert IsDown(polls[0]);
      forall i | 0 <= i < k - 1
        ensures IsDown(polls[1..][i])
      {
        assert polls[1..][i] == polls[i + 1];
      }
      WaitErrors(Next(control, polls[0]), node, polls[1..], k - 1);
    }
  }

  function PollOf(read: C.Result<C.Control>): Poll {
    match read
    case Ok(control) => Read(control)
    case Err => Unreadable
  }

  lemma QuietIsHarmless(node: string)
    ensures EffectiveMode(C.QUIET) == "normal" && ApplyControl(C.QUIET, node) == Effect("normal", false, 0, false, 0)
  {
    C.NormalMode();
    assert TrimSpace("") == "";
  }

  /** Recovering frees a blocked worker: from any prior state, the first poll that reads the document the recovery
      writes ends the wait, and that control does nothing to the worker on any node. */
  lemma RecoveryEndsTheWait(state: C.ControlState, parse: C.Parser, raw: C.Json -> string,
                            control: C.Control, node: string, polls: seq<Poll>, k: nat)
    requires C.InRange64(state.generation)
    requires EffectiveMode(control) == "down" && k < |polls| && forall i | 0 <= i < k :: IsDown(polls[i])
    requires polls[k] == PollOf(C.ReadControl(C.Document(C.Mutated(C.Recover(state))), parse, raw))
    ensures WaitOutcome(control, node, polls).control == Some(C.QUIET)
    ensures ApplyControl(C.QUIET, node) == Effect("normal", false, 0, false, 0)
  {
    C.RecoverSucceeds(state, parse, raw);
    QuietIsHarmless(node);
    WaitEndsAtFirstUp(control, node, polls, k);
  }
}
