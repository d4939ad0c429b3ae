/** The built-in fabric scenarios from end to end: that they are accepted, what the exporters show, what the worker reads
    once they are synchronised, and what that does to it. */
module Incidents {
  import opened Prelude
  import opened Text
  import opened Fabric
  import C = ControlDocument
  import F = ControlFaults
  import S = Scenarios
  import E = Exporters
  import V = ExporterShows

  // ---------------------------------------------------------------------------------------------
  // On which node
  // ---------------------------------------------------------------------------------------------

  /** The cluster node an incident is about. */
  function NodeNameOf(i: Incident): string {
    match i
    case LinkDown => "gpu-lab-worker2"
    case RateDegraded => "gpu-lab-worker3"
    case SymbolErrors => "gpu-lab-worker"
    case RetryStorm => "gpu-lab-worker2"
    case Congestion => "gpu-lab-worker3"
  }

  /** The node goes by the incident's node name or node id. */
  predicate Hit(i: Incident, node: string) {
    node == NodeNameOf(i) || node == NodeIdOf(i)
  }

  lemma HitIsNodeId(i: Incident, node: string)
    ensures Hit(i, node) <==> E.SyntheticNodeId(node) == NodeIdOf(i)
  {
    SyntheticIds(node);
    IdsAreNotNames(node);
  }

  lemma HitIsSelected(i: Incident, node: string)
    ensures E.SelectorMatches(node, BuiltIn(i).targets.selector) <==> Hit(i, node)
  {
    NodeIdLabel(node);
    HitIsNodeId(i, node);
  }

  lemma HitIsTargeted(i: Incident, node: string)
    requires TrimSpace(node) == node != ""
    ensures TargetMatches(NodeIdOf(i), node) <==> Hit(i, node)
  {
    NodeIdIsItsOwn(NodeIdOf(i));
    TargetIsANodeId(NodeIdOf(i), node);
    HitIsNodeId(i, node);
  }

  // ---------------------------------------------------------------------------------------------
  // Accepted scenarios
  // ---------------------------------------------------------------------------------------------

  lemma IncidentName(i: Incident)
    ensures S.DnsName(NameOf(i))
  {
    match i
    case LinkDown => assert S.DnsName("ib-link-down");
    case RateDegraded => assert S.DnsName("ib-rate-degraded");
    case SymbolErrors => assert S.DnsName("ib-symbol-errors");
    case RetryStorm => assert S.DnsName("rdma-retry-storm");
    case Congestion => assert S.DnsName("ib-congestion");
  }

  lemma IncidentMetrics(i: Incident)
    ensures S.ValidMetrics(MetricsOf(i))
  {
  }

  lemma KeyIsNotBlank()
    ensures !Blank("gpu.lab/node-id")
  {
    assert |"gpu.lab/node-id"| == 15 && "gpu.lab/node-id"[14] == 'd';
    TrimKeeps("gpu.lab/node-id");
  }

  lemma IncidentTargets(i: Incident)
    ensures S.ValidTargets(BuiltIn(i).targets) && S.MetricsFitTargets(BuiltIn(i).targets, MetricsOf(i))
  {
    NodeIdIsItsOwn(NodeIdOf(i));
    KeyIsNotBlank();
    SingleLabel("gpu.lab/node-id", NodeIdOf(i));
  }

  lemma SingleLabel(key: string, value: string)
    requires !Blank(key) && !Blank(value)
    ensures S.ValidTargets(S.Targets(map[key := value], []))
  {
  }

  lemma BuiltInIsValid(i: Incident)
    ensures S.Valid(BuiltIn(i))
  {
    IncidentName(i);
    IncidentMetrics(i);
    IncidentTargets(i);
  }

  // ---------------------------------------------------------------------------------------------
  // What the exporters show
  // ---------------------------------------------------------------------------------------------

  /** The fabric as an incident's own node shows it. */
  function FabricOf(i: Incident): E.FabricReading {
    match i
    case LinkDown => E.FabricReading(0, "DOWN", "DISABLED", 200.0, 0, 0, 0, 0, 1, 0, 0, 0, 0, 0.0)
    case RateDegraded => E.FabricReading(1, "ACTIVE", "LINK_UP", 25.0, 0, 0, 0, 0, 0, 0, 0, 0, 0, 1.5)
    case SymbolErrors => E.FabricReading(1, "ACTIVE", "LINK_UP", 200.0, 0, 0, 128, 6, 0, 0, 0, 0, 0, 0.0)
    case RetryStorm => E.FabricReading(1, "ACTIVE", "LINK_UP", 200.0, 0, 0, 0, 0, 0, 0, 0, 250, 8, 1.0)
    case Congestion => E.FabricReading(1, "ACTIVE", "LINK_UP", 200.0, 0, 0, 0, 0, 0, 32, 640, 0, 0, 0.8)
  }

  lemma FabricOfShows(i: Incident, f: E.FabricReading)
    requires V.ShowsFabric(f, MetricsOf(i))
    ensures f == FabricOf(i)
  {
  }

  /** An incident's name and fabric are shown on the node it is about and nowhere else; every other node shows the defaults,
      and so do the GPUs of all nodes. */
  lemma IncidentShows(i: Incident, a: E.Applied, times: seq<nat>)
    requires a.scenario == BuiltIn(i) && times != []
    ensures var shown := E.Show(E.RefreshedBy(E.Fresh(a), times));
            if Hit(i, a.node) then
              && shown.node == a.node && shown.scenario == NameOf(i) && shown.phase == "" && shown.fault == ""
              && shown.fabric == FabricOf(i)
              && |shown.readings| == a.gpuCount && V.GpusShowDefaults(shown.readings, a.node)
            else V.ShowsBaseline(shown, a)
  {
    BuiltInIsValid(i);
    HitIsSelected(i, a.node);
    if Hit(i, a.node) {
      V.MatchedShows(a, times);
      var shown := E.Show(E.RefreshedBy(E.Fresh(a), times));
      FabricOfShows(i, shown.fabric);
      V.GpusUntouched(shown.readings, a.node, a.scenario, MetricsOf(i));
    } else {
      V.OthersShowBaseline(a, times);
    }
  }

  // ---------------------------------------------------------------------------------------------
  // What the worker does
  // ---------------------------------------------------------------------------------------------

  /** The delay of an incident, in nanoseconds. */
  function DelayOf(i: Incident): int {
    match i
    case LinkDown => 0
    case RateDegraded => 1_500_000_000
    case SymbolErrors => 0
    case RetryStorm => 1_000_000_000
    case Congestion => 800_000_000
  }

  lemma LowerKeeps(s: string)
    requires forall i | 0 <= i < |s| :: !('A' <= s[i] <= 'Z')
    ensures ToLower(s) == s
  {
    forall i | 0 <= i < |s|
      ensures ToLower(s)[i] == s[i]
    {
      LowerAt(s, i);
    }
  }

  lemma ModeIsPlain(i: Incident)
    ensures var mode := ModeOf(i);
            mode != "" && mode != "normal" && TrimSpace(mode) == mode && ToLower(mode) == mode
  {
    BuiltInDelay(i);
    var mode := ModeOf(i);
    match i {
      case LinkDown => assert |mode| == 4 && mode[3] == 'n';
      case RateDegraded => assert |mode| == 8 && mode[7] == 'd';
      case SymbolErrors => assert |mode| == 6 && mode[5] == 's';
      case RetryStorm => assert |mode| == 7 && mode[6] == 's';
      case Congestion => assert |mode| == 10 && mode[9] == 'n';
    }
    TrimKeeps(mode);
    LowerKeeps(mode);
  }

  lemma ModeDelay(i: Incident)
    ensures DefaultDelay(ModeOf(i)) == DelayOf(i) && FaultMode(ModeOf(i))
  {
    BuiltInDelay(i);
  }

  /** A control with an incident's mode and node: the worker on that node has the fault, with the control's own delay or,
      if there is none, the incident's; the worker on any other node sees the mode and does nothing about it. */
  lemma IncidentEffect(i: Incident, control: C.Control, node: string)
    requires control.fabricMode == ModeOf(i) && control.fabricTargetNode == NodeIdOf(i)
    requires TrimSpace(node) == node != ""
    ensures var delay := if control.fabricDelay > 0 then control.fabricDelay else DelayOf(i);
            ApplyControl(control, node) == if Hit(i, node) then Effect(ModeOf(i), true, delay, true, delay)
                                           else Effect(ModeOf(i), false, control.fabricDelay, false, 0)
  {
    ModeIsPlain(i);
    ModeDelay(i);
    HitIsTargeted(i, node);
  }

  /** A worker has a fabric fault exactly when the mode, lowered and without white space around it, is one of five and its
      node is the target; any other mode is the normal one. */
  lemma FaultsExactly(control: C.Control, node: string)
    ensures var effect, mode := ApplyControl(control, node), ToLower(TrimSpace(control.fabricMode));
            var known := mode in {"down", "degraded", "errors", "retries", "congestion"};
            && (effect.active <==> known && effect.targeted)
            && (effect.targeted <==> TargetMatches(control.fabricTargetNode, node))
            && effect.mode == if known then mode else "normal"
  {
    if FaultMode(ToLower(TrimSpace(control.fabricMode))) {
      NotNormal(ToLower(TrimSpace(control.fabricMode)));
    }
  }

  lemma NotNormal(mode: string)
    requires FaultMode(mode)
    ensures mode != "normal"
  {
    assert |"normal"| == |"errors"| == 6 && "normal"[0] == 'n' && "errors"[0] == 'e';
  }

  // ---------------------------------------------------------------------------------------------
  // From the scenario's name to the worker
  // ---------------------------------------------------------------------------------------------

  function DelayText(i: Incident): string {
    match i
    case LinkDown => ""
    case RateDegraded => "1.5s"
    case SymbolErrors => ""
    case RetryStorm => "1s"
    case Congestion => "800ms"
  }

  /** The parser reads the three delay texts of the incidents as what they say. */
  predicate ReadsDelays(parse: C.Parser) {
    parse("1.5s") == Some(1_500_000_000) && parse("1s") == Some(1_000_000_000) && parse("800ms") == Some(800_000_000)
  }

  lemma DelayTextIsPlain(i: Incident)
    ensures TrimSpace(DelayText(i)) == DelayText(i)
  {
    var text := DelayText(i);
    match i {
      case LinkDown => assert text == "";
      case RateDegraded => assert |text| == 4 && text[0] == '1' && text[3] == 's';
      case SymbolErrors => assert text == "";
      case RetryStorm => assert |text| == 2 && text[0] == '1' && text[1] == 's';
      case Congestion => assert |text| == 5 && text[0] == '8' && text[4] == 's';
    }
    TrimKeeps(text);
  }

  lemma ScenarioControl(i: Incident)
    ensures C.FabricControlForScenario(NameOf(i)) == C.FabricControl(ModeOf(i), NodeIdOf(i), DelayText(i))
  {
    match i {
      case LinkDown => LinkDownControl();
      case RateDegraded => RateDegradedControl();
      case SymbolErrors => SymbolErrorsControl();
      case RetryStorm => RetryStormControl();
      case Congestion => CongestionControl();
    }
  }

  /** The state after a fabric control was synchronised. */
  function Synchronised(state: C.ControlState, c: C.FabricControl): C.ControlState {
    C.Mutated(C.ApplyFabric(state, c))
  }

  /** The state with these fabric fields and the next generation. */
  function WithFabric(state: C.ControlState, c: C.FabricControl): C.ControlState {
    state.(generation := C.Wrap64(state.generation + 1), fabricMode := c.mode, fabricTargetNode := c.targetNode,
           fabricDelay := c.delay)
  }

  /** A control that normalising leaves as it is. */
  predicate Plain(c: C.FabricControl) {
    && c.mode != "" && c.mode != "normal" && ToLower(c.mode) == c.mode && TrimSpace(c.mode) == c.mode
    && TrimSpace(c.targetNode) == c.targetNode && TrimSpace(c.delay) == c.delay
  }

  lemma PlainFabricApplied(state: C.ControlState, c: C.FabricControl)
    requires Plain(c)
    ensures Synchronised(state, c) == WithFabric(state, c)
  {
  }

  lemma PlainIsNotNormal(state: C.ControlState, c: C.FabricControl)
    requires Plain(c)
    ensures !F.AsksNormal(WithFabric(state, c))
  {
  }

  lemma NoneIsNormalized(none: C.FabricControl)
    requires none == C.FabricControl("normal", "", "")
    ensures C.NormalizedFabric(none) == none && TrimSpace(none.targetNode) == none.targetNode
    ensures TrimSpace(none.delay) == none.delay
  {
    C.NormalMode();
  }

  lemma NormalizedIsApplied(state: C.ControlState, c: C.FabricControl)
    requires C.NormalizedFabric(c) == c && TrimSpace(c.targetNode) == c.targetNode && TrimSpace(c.delay) == c.delay
    ensures Synchronised(state, c) == WithFabric(state, c)
  {
  }

  lemma NormalAsked(state: C.ControlState)
    requires state.fabricMode == "normal"
    ensures F.AsksNormal(state)
  {
    C.NormalMode();
  }

  /** The straggler and the crash of a written state, as `WrittenIsRead` gives them. */
  function OwnStraggler(state: C.ControlState, parse: C.Parser): Option<Option<C.Straggler>> {
    if state.stragglerRank.None? then Some(None)
    else
      var delay := F.DelayOf(state.stragglerDelay, parse(state.stragglerDelay));
      if state.stragglerRank.value < 0 || delay.None? || delay.value < 0 then None
      else Some(Some(C.Straggler(state.stragglerRank.value, delay.value)))
  }

  function OwnCrash(state: C.ControlState, generation: int): Option<C.CrashControl> {
    if state.crashRank.None? then None
    else Some(C.CrashControl(state.crashRank.value, state.crashToken != "", IntText(generation), state.crashToken))
  }

  /** What a worker reads with the straggler and the crash of this state, the crash under the next generation. */
  function ReadWith(state: C.ControlState, parse: C.Parser, mode: string, target: string, delay: int): C.Result<C.Control> {
    var straggler := OwnStraggler(state, parse);
    if straggler.None? || (state.crashRank.Some? && state.crashRank.value < 0) then C.Err
    else C.Ok(C.Control(straggler.value, OwnCrash(state, C.Wrap64(state.generation + 1)), mode, target, delay))
  }

  lemma ReadsPlain(read: C.Result<C.Control>, state: C.ControlState, c: C.FabricControl, ns: int, parse: C.Parser)
    requires F.ReadsAs(read, WithFabric(state, c), parse)
    requires Plain(c) && !F.AsksNormal(WithFabric(state, c)) && F.DelayOf(c.delay, parse(c.delay)) == Some(ns) && ns >= 0
    ensures read == ReadWith(state, parse, c.mode, c.targetNode, ns)
  {
  }

  lemma ReadsNormal(read: C.Result<C.Control>, state: C.ControlState, c: C.FabricControl, parse: C.Parser)
    requires F.ReadsAs(read, WithFabric(state, c), parse) && F.AsksNormal(WithFabric(state, c))
    ensures read == ReadWith(state, parse, "normal", "", 0)
  {
  }

  lemma PlainIsRead(state: C.ControlState, c: C.FabricControl, ns: int, parse: C.Parser, raw: C.Json -> string)
    requires C.Fits(state) && Plain(c) && F.DelayOf(c.delay, parse(c.delay)) == Some(ns) && ns >= 0
    ensures C.ReadControl(C.Document(Synchronised(state, c)), parse, raw) ==
            ReadWith(state, parse, c.mode, c.targetNode, ns)
  {
    PlainFabricApplied(state, c);
    PlainIsNotNormal(state, c);
    C.WrapStaysInRange(state.generation);
    F.WrittenIsRead(WithFabric(state, c), parse, raw);
    ReadsPlain(C.ReadControl(C.Document(WithFabric(state, c)), parse, raw), state, c, ns, parse);
  }

  lemma NormalIsRead(state: C.ControlState, parse: C.Parser, raw: C.Json -> string)
    requires C.Fits(state)
    ensures C.ReadControl(C.Document(Synchronised(state, C.FabricControl("normal", "", ""))), parse, raw) ==
            ReadWith(state, parse, "normal", "", 0)
  {
    var none := C.FabricControl("normal", "", "");
    NoneIsNormalized(none);
    NormalizedIsApplied(state, none);
    NormalAsked(WithFabric(state, none));
    C.WrapStaysInRange(state.generation);
    F.WrittenIsRead(WithFabric(state, none), parse, raw);
    ReadsNormal(C.ReadControl(C.Document(WithFabric(state, none)), parse, raw), state, none, parse);
  }

  lemma IncidentControl(i: Incident) returns (c: C.FabricControl)
    ensures c == C.FabricControlForScenario(NameOf(i)) && c == C.FabricControl(ModeOf(i), NodeIdOf(i), DelayText(i))
    ensures Plain(c)
  {
    ScenarioControl(i);
    DelayTextIsPlain(i);
    ModeIsPlain(i);
    NodeIdIsItsOwn(NodeIdOf(i));
    c := C.FabricControl(ModeOf(i), NodeIdOf(i), DelayText(i));
  }

  lemma IncidentDelay(i: Incident, parse: C.Parser)
    requires ReadsDelays(parse)
    ensures F.DelayOf(DelayText(i), parse(DelayText(i))) == Some(DelayOf(i)) && DelayOf(i) >= 0
  {
  }

  /** Synchronising an incident makes the worker read its mode, its node and its delay, whatever fabric fault was there
      before, with the straggler and the crash that were there before, the crash under the next generation. */
  lemma SyncIsRead(i: Incident, state: C.ControlState, parse: C.Parser, raw: C.Json -> string)
    requires C.Fits(state) && ReadsDelays(parse)
    ensures var c := C.FabricControlForScenario(NameOf(i));
            C.ReadControl(C.Document(Synchronised(state, c)), parse, raw) ==
            ReadWith(state, parse, ModeOf(i), NodeIdOf(i), DelayOf(i))
  {
    var c := IncidentControl(i);
    IncidentDelay(i, parse);
    PlainIsRead(state, c, DelayOf(i), parse, raw);
  }

  /** Applying any other scenario makes the worker read no fabric fault, again with the straggler and the crash that were
      there before. */
  lemma OtherSyncClears(name: string, state: C.ControlState, parse: C.Parser, raw: C.Json -> string)
    requires C.Fits(state) && forall i: Incident :: TrimSpace(name) != NameOf(i)
    ensures C.ReadControl(C.Document(Synchronised(state, C.FabricControlForScenario(name))), parse, raw) ==
            ReadWith(state, parse, "normal", "", 0)
  {
    NotAnIncident(name);
    NormalIsRead(state, parse, raw);
  }

  lemma NotAnIncident(name: string)
    requires forall i: Incident :: TrimSpace(name) != NameOf(i)
    ensures C.FabricControlForScenario(name) == C.FabricControl("normal", "", "")
  {
    assert TrimSpace(name) != NameOf(LinkDown) && TrimSpace(name) != NameOf(RateDegraded);
    assert TrimSpace(name) != NameOf(SymbolErrors) && TrimSpace(name) != NameOf(RetryStorm);
    assert TrimSpace(name) != NameOf(Congestion);
  }

  /** From end to end: once an incident is applied and synchronised, the exporter of exactly one node shows it, with its
      delay, and the worker of exactly that node suffers it, for that delay. */
  lemma IncidentHitsOneNode(i: Incident, state: C.ControlState, parse: C.Parser, raw: C.Json -> string,
                            a: E.Applied, times: seq<nat>)
    requires C.Fits(state) && ReadsDelays(parse) && a.scenario == BuiltIn(i) && times != []
    requires TrimSpace(a.node) == a.node != ""
    requires C.ReadControl(C.Document(Synchronised(state, C.FabricControlForScenario(NameOf(i)))), parse, raw).Ok?
    ensures var control := C.ReadControl(C.Document(Synchronised(state, C.FabricControlForScenario(NameOf(i)))), parse, raw).value;
            var shown := E.Show(E.RefreshedBy(E.Fresh(a), times));
            var effect := ApplyControl(control, a.node);
            && (Hit(i, a.node) <==> shown.scenario == NameOf(i)) && (Hit(i, a.node) <==> effect.active)
            && effect == (if Hit(i, a.node) then Effect(ModeOf(i), true, DelayOf(i), true, DelayOf(i))
                          else Effect(ModeOf(i), false, DelayOf(i), false, 0))
            && effect.shown as real == shown.fabric.fabricDelaySeconds * 1_000_000_000.0
  {
    SyncIsRead(i, state, parse, raw);
    IncidentEffect(i, C.ReadControl(C.Document(Synchronised(state, C.FabricControlForScenario(NameOf(i)))), parse, raw).value, a.node);
    IncidentShows(i, a, times);
    NamedNormal(i);
  }

  lemma NamedNormal(i: Incident)
    ensures NameOf(i) != "normal"
    ensures DelayOf(i) as real == FabricOf(i).fabricDelaySeconds * 1_000_000_000.0
  {
    assert |"normal"| == 6;
  }
}
