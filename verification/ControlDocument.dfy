/** The training control document: its writer, the worker's lax reader, and the strict reader of the recovery
    check. A document is a decoded JSON value. Two parsers stay parameters, about which nothing is assumed:
    `parse` reads duration text (in nanoseconds) and `raw` gives the text of a JSON value. */
module ControlDocument {
  import opened Prelude
  import opened Text

  /** Member names: those of the flat schema, of the nested one and of its parts, and any other. */
  datatype Key =
    | Generation | StragglerRank | StragglerDelay | CrashRank | CrashToken | FabricMode | FabricTargetNode | FabricDelay
    | NestedStraggler | NestedCrash
    | Rank | Delay | Enabled | Token
    | Other(name: string)

  datatype Json =
    | Null
    | Bool(b: bool)
    | Int(n: int)
    | Decimal(seconds: real)
    | String(s: string)
    | Array(items: seq<Json>)
    | Object(fields: map<Key, Json>)

  datatype Result<+T> = Ok(value: T) | Err

  type Parser = string -> Option<int>

  const NANOSECONDS := 1_000_000_000

  predicate InRange64(n: int) {
    -0x8000_0000_0000_0000 <= n < 0x8000_0000_0000_0000
  }

  function Wrap64(n: int): int {
    (n + 0x8000_0000_0000_0000) % 0x1_0000_0000_0000_0000 - 0x8000_0000_0000_0000
  }

  // ---------------------------------------------------------------------------------------------
  // Typed decoding of members; an absent or null member leaves the zero value
  // ---------------------------------------------------------------------------------------------

  function DecodeInt(j: Json): Result<int> {
    match j
    case Null => Ok(0)
    case Int(n) => if InRange64(n) then Ok(n) else Err
    case _ => Err
  }

  function DecodeText(j: Json): Result<string> {
    match j
    case Null => Ok("")
    case String(s) => Ok(s)
    case _ => Err
  }

  function DecodeBool(j: Json): Result<bool> {
    match j
    case Null => Ok(false)
    case Bool(b) => Ok(b)
    case _ => Err
  }

  function Member(fields: map<Key, Json>, name: Key): Json {
    if name in fields then fields[name] else Null
  }

  predicate Given(fields: map<Key, Json>, name: Key) {
    name in fields && fields[name] != Null
  }

  function MemberText(fields: map<Key, Json>, name: Key): Result<string> {
    DecodeText(Member(fields, name))
  }

  function MemberRank(fields: map<Key, Json>, name: Key): Result<Option<int>> {
    if !Given(fields, name) then Ok(None)
    else match DecodeInt(fields[name])
         case Ok(n) => Ok(Some(n))
         case Err => Err
  }

  /** A number of seconds, truncated to nanoseconds. */
  function SecondsToDuration(seconds: real): int {
    var t := seconds * NANOSECONDS as real;
    if t >= 0.0 then t.Floor else -(-t).Floor
  }

  // ---------------------------------------------------------------------------------------------
  // The worker's reader
  // ---------------------------------------------------------------------------------------------

  datatype Straggler = Straggler(rank: int, delay: int)

  datatype CrashControl = CrashControl(rank: int, enabled: bool, generation: string, token: string)

  datatype Control = Control(
    straggler: Option<Straggler>,
    crash: Option<CrashControl>,
    fabricMode: string,
    fabricTargetNode: string,
    fabricDelay: int)

  /** A delay as text or as a number of seconds; null counts as the empty text. */
  function DecodeDelay(j: Json, parse: Parser, trim: bool): Result<int> {
    match j
    case Int(n) => Ok(n * NANOSECONDS)
    case Decimal(seconds) => Ok(SecondsToDuration(seconds))
    case _ =>
      match DecodeText(j)
      case Err => Err
      case Ok(s) =>
        match parse(if trim then TrimSpace(s) else s)
        case Some(d) => Ok(d)
        case None => Err
  }

  function DecodeStraggler(j: Json, parse: Parser): Result<Option<Straggler>> {
    match j
    case Null => Ok(None)
    case Object(fields) =>
      (match DecodeInt(Member(fields, Rank))
       case Err => Err
       case Ok(rank) =>
         if Delay !in fields then Ok(Some(Straggler(rank, 0)))
         else match DecodeDelay(fields[Delay], parse, false)
              case Ok(delay) => Ok(Some(Straggler(rank, delay)))
              case Err => Err)
    case _ => Err
  }

  function DecodeCrash(j: Json): Result<Option<CrashControl>> {
    match j
    case Null => Ok(None)
    case Object(fields) =>
      var rank := DecodeInt(Member(fields, Rank));
      var enabled := DecodeBool(Member(fields, Enabled));
      var generation := MemberText(fields, Generation);
      var token := MemberText(fields, Token);
      if rank.Ok? && enabled.Ok? && generation.Ok? && token.Ok?
      then Ok(Some(CrashControl(rank.value, enabled.value, generation.value, token.value)))
      else Err
    case _ => Err
  }

  /** The nested schema: the whole document is decoded when it has a `straggler` or a `crash` member. */
  function ReadNested(fields: map<Key, Json>, parse: Parser): Result<(Option<Straggler>, Option<CrashControl>)> {
    if NestedStraggler !in fields && NestedCrash !in fields then Ok((None, None))
    else
      var straggler := DecodeStraggler(Member(fields, NestedStraggler), parse);
      var crash := DecodeCrash(Member(fields, NestedCrash));
      if straggler.Ok? && crash.Ok? && MemberText(fields, FabricMode).Ok?
         && MemberText(fields, FabricTargetNode).Ok?
      then Ok((straggler.value, crash.value)) else Err
  }

  function ReadStraggler(fields: map<Key, Json>, parse: Parser, nested: Option<Straggler>): Result<Option<Straggler>> {
    if StragglerRank !in fields then Ok(nested)
    else if fields[StragglerRank] == Null then Ok(None)
    else
      match DecodeInt(fields[StragglerRank])
      case Err => Err
      case Ok(rank) =>
        if StragglerDelay !in fields then Ok(Some(Straggler(rank, 0)))
        else
          match DecodeText(fields[StragglerDelay])
          case Err => Err
          case Ok(text) =>
            match parse(text)
            case Some(delay) => Ok(Some(Straggler(rank, delay)))
            case None => Err
  }

  /** A scalar's own text: what a text holds, and for anything else the way it is written. */
  function ScalarText(j: Json, raw: Json -> string): string {
    match j
    case String(s) => s
    case Int(n) => IntText(n)
    case _ => raw(j)
  }

  function ReadCrash(fields: map<Key, Json>, raw: Json -> string, nested: Option<CrashControl>): Result<Option<CrashControl>> {
    if CrashRank !in fields then Ok(nested)
    else if fields[CrashRank] == Null then Ok(None)
    else
      var rank := DecodeInt(fields[CrashRank]);
      var token := MemberText(fields, CrashToken);
      if !rank.Ok? || !token.Ok? then Err
      else
        var generation := if Given(fields, Generation) then ScalarText(fields[Generation], raw) else "";
        Ok(Some(CrashControl(rank.value, token.value != "", generation, token.value)))
  }

  function ReadFabricDelay(fields: map<Key, Json>, parse: Parser): Result<int> {
    if !Given(fields, FabricDelay) then Ok(0)
    else
      var delay := DecodeDelay(fields[FabricDelay], parse, true);
      if delay.Ok? && delay.value >= 0 then delay else Err
  }

  function ReadMode(text: string): string {
    var mode := ToLower(TrimSpace(text));
    if mode == "" then "normal" else mode
  }

  /** What the worker makes of a control document that is present and not empty. */
  function ReadControl(doc: Json, parse: Parser, raw: Json -> string): Result<Control> {
    if !doc.Object? && !doc.Null? then Err
    else
      var fields := if doc.Object? then doc.fields else map[];
      var nested := ReadNested(fields, parse);
      if nested.Err? then Err
      else
        var straggler := ReadStraggler(fields, parse, nested.value.0);
        var crash := ReadCrash(fields, raw, nested.value.1);
        var mode := MemberText(fields, FabricMode);
        var target := MemberText(fields, FabricTargetNode);
        var delay := ReadFabricDelay(fields, parse);
        if straggler.Err? || crash.Err? || mode.Err? || target.Err? || delay.Err? then Err
        else if straggler.value.Some? && (straggler.value.value.rank < 0 || straggler.value.value.delay < 0) then Err
        else if crash.value.Some? && crash.value.value.rank < 0 then Err
        else Ok(Control(straggler.value, crash.value, ReadMode(mode.value), TrimSpace(target.value), delay.value))
  }

  /** The name of a one-shot crash: the generation if there is one, else the token. */
  function CrashId(c: Control): string {
    if c.crash.None? || !c.crash.value.enabled then ""
    else if c.crash.value.generation != "" then c.crash.value.generation
    else c.crash.value.token
  }

  /** No injection of any kind. */
  const QUIET := Control(None, None, "normal", "", 0)

  // ---------------------------------------------------------------------------------------------
  // The strict reader of the recovery check
  // ---------------------------------------------------------------------------------------------

  const KNOWN_MEMBERS := {Generation, StragglerRank, StragglerDelay, CrashRank, CrashToken,
                          FabricMode, FabricTargetNode, FabricDelay}

  datatype ControlState = ControlState(
    generation: int,
    stragglerRank: Option<int>,
    stragglerDelay: string,
    crashRank: Option<int>,
    crashToken: string,
    fabricMode: string,
    fabricTargetNode: string,
    fabricDelay: string)

  /** Typed decoding of the members of a flat document, ignoring members it does not know. */
  function ReadState(doc: Json): Result<ControlState> {
    if !doc.Object? then Err
    else
      var f := doc.fields;
      var generation := DecodeInt(Member(f, Generation));
      var stragglerRank := MemberRank(f, StragglerRank);
      var stragglerDelay := MemberText(f, StragglerDelay);
      var crashRank := MemberRank(f, CrashRank);
      var crashToken := MemberText(f, CrashToken);
      var mode := MemberText(f, FabricMode);
      var target := MemberText(f, FabricTargetNode);
      var delay := MemberText(f, FabricDelay);
      if generation.Ok? && stragglerRank.Ok? && stragglerDelay.Ok? && crashRank.Ok? && crashToken.Ok?
         && mode.Ok? && target.Ok? && delay.Ok?
      then Ok(ControlState(generation.value, stragglerRank.value, stragglerDelay.value, crashRank.value,
                           crashToken.value, mode.value, target.value, delay.value))
      else Err
  }

  /** The same members, decoded strictly: an unknown member is an error. */
  function DecodeStrict(doc: Json): Result<ControlState> {
    if doc.Object? && doc.fields.Keys <= KNOWN_MEMBERS then ReadState(doc) else Err
  }

  /** The recovery check's verdict on a control document. */
  predicate Recovered(doc: Json, parse: Parser) {
    match DecodeStrict(doc)
    case Err => false
    case Ok(state) =>
      var mode := ToLower(TrimSpace(state.fabricMode));
      && (mode == "" || mode == "normal")
      && Blank(state.fabricTargetNode)
      && (Blank(state.fabricDelay) || parse(TrimSpace(state.fabricDelay)) == Some(0))
      && state.stragglerRank.None? && Blank(state.stragglerDelay)
      && state.crashRank.None? && Blank(state.crashToken)
  }

  // ---------------------------------------------------------------------------------------------
  // The two readers agree
  // ---------------------------------------------------------------------------------------------

  /** A blank delay that is present: the strict reader skips it, the worker cannot parse it. */
  predicate BlankDelay(doc: Json, parse: Parser) {
    && doc.Object? && FabricDelay in doc.fields && doc.fields[FabricDelay].String?
    && Blank(doc.fields[FabricDelay].s) && parse("") != Some(0)
  }

  /** For every document the recovery check accepts, hand-written or not, the worker reads it as free of any
      injection, exactly unless it carries a blank delay. */
  lemma RecoveredIsQuiet(doc: Json, parse: Parser, raw: Json -> string)
    requires Recovered(doc, parse)
    ensures ReadControl(doc, parse, raw) == Ok(QUIET) <==> !BlankDelay(doc, parse)
  {
    var f := doc.fields;
    assert NestedStraggler !in f && NestedCrash !in f;
    assert ReadNested(f, parse) == Ok((None, None));
    assert ReadStraggler(f, parse, None) == Ok(None);
    assert ReadCrash(f, raw, None) == Ok(None);
    assert ReadMode(MemberText(f, FabricMode).value) == "normal";
    assert TrimSpace(MemberText(f, FabricTargetNode).value) == "";
    if Given(f, FabricDelay) {
      assert f[FabricDelay].String?;
    }
  }

  /** There is such a document: with a parser that rejects the empty text, an object whose only member is an empty
      delay is accepted, and the worker cannot read it. */
  lemma BlankDelayIsAccepted(parse: Parser, raw: Json -> string)
    requires parse("") == None
    ensures var doc := Object(map[FabricDelay := String("")]);
            Recovered(doc, parse) && BlankDelay(doc, parse) && ReadControl(doc, parse, raw) == Err
  {
    var f := map[FabricDelay := String("")];
    assert Member(f, FabricDelay) == String("") && TrimSpace("") == "";
    assert DecodeStrict(Object(f)) == Ok(ControlState(0, None, "", None, "", "", "", ""));
  }

  // ---------------------------------------------------------------------------------------------
  // The writer
  // ---------------------------------------------------------------------------------------------

  datatype FabricControl = FabricControl(mode: string, targetNode: string, delay: string)

  function FabricControlForScenario(name: string): FabricControl {
    var trimmed := TrimSpace(name);
    if trimmed == "ib-link-down" then FabricControl("down", "gpu-node-02", "")
    else if trimmed == "ib-rate-degraded" then FabricControl("degraded", "gpu-node-03", "1.5s")
    else if trimmed == "ib-symbol-errors" then FabricControl("errors", "gpu-node-01", "")
    else if trimmed == "rdma-retry-storm" then FabricControl("retries", "gpu-node-02", "1s")
    else if trimmed == "ib-congestion" then FabricControl("congestion", "gpu-node-03", "800ms")
    else FabricControl("normal", "", "")
  }

  function NormalizedFabric(c: FabricControl): FabricControl {
    var mode := TrimSpace(ToLower(c.mode));
    if mode == "" || mode == "normal" then FabricControl("normal", "", "") else c.(mode := mode)
  }

  function ApplyFabric(state: ControlState, c: FabricControl): ControlState {
    var n := NormalizedFabric(c);
    state.(fabricMode := n.mode, fabricTargetNode := TrimSpace(n.targetNode), fabricDelay := TrimSpace(n.delay))
  }

  /** The state as it is serialised: an explicit mode, and no fabric target or delay with mode normal. */
  function Normalized(state: ControlState): ControlState {
    var mode := ReadMode(state.fabricMode);
    if mode == "normal" then state.(fabricMode := mode, fabricTargetNode := "", fabricDelay := "")
    else state.(fabricMode := mode)
  }

  function TextJson(s: string): Json {
    if s == "" then Null else String(s)
  }

  function RankJson(rank: Option<int>): Json {
    if rank.None? then Null else Int(rank.value)
  }

  /** The member the writer would write under a name; null stands for one that is omitted because it is empty. */
  function Written(c: ControlState, name: Key): Json {
    match name
    case Generation => Int(c.generation)
    case StragglerRank => RankJson(c.stragglerRank)
    case StragglerDelay => TextJson(c.stragglerDelay)
    case CrashRank => RankJson(c.crashRank)
    case CrashToken => TextJson(c.crashToken)
    case FabricMode => TextJson(c.fabricMode)
    case FabricTargetNode => TextJson(c.fabricTargetNode)
    case FabricDelay => TextJson(c.fabricDelay)
    case _ => Null
  }

  /** The serialised document of a state. */
  function Document(state: ControlState): Json {
    var c := Normalized(state);
    Object(map name | name in KNOWN_MEMBERS && Written(c, name) != Null :: Written(c, name))
  }

  /** The numbers of a state fit their Go types. */
  predicate Fits(state: ControlState) {
    && InRange64(state.generation)
    && (state.stragglerRank.Some? ==> InRange64(state.stragglerRank.value))
    && (state.crashRank.Some? ==> InRange64(state.crashRank.value))
  }

  /** Reading a member of a written document gives what was written, or null if it was omitted. */
  lemma DocumentMember(state: ControlState, name: Key)
    ensures Member(Document(state).fields, name) == Written(Normalized(state), name)
    ensures name in Document(state).fields <==> Written(Normalized(state), name) != Null
  {
  }

  lemma DocumentMembers(state: ControlState)
    ensures var f := Document(state).fields;
            && f.Keys <= KNOWN_MEMBERS
            && forall name :: Member(f, name) == Written(Normalized(state), name)
                              && (name in f <==> Written(Normalized(state), name) != Null)
  {
    forall name
      ensures Member(Document(state).fields, name) == Written(Normalized(state), name)
      ensures name in Document(state).fields <==> Written(Normalized(state), name) != Null
    {
      DocumentMember(state, name);
    }
  }

  lemma DecodesText(fields: map<Key, Json>, name: Key, s: string)
    requires Member(fields, name) == TextJson(s)
    ensures MemberText(fields, name) == Ok(s)
  {
  }

  lemma DecodesRank(fields: map<Key, Json>, name: Key, rank: Option<int>)
    requires Member(fields, name) == RankJson(rank) && (rank.Some? ==> InRange64(rank.value))
    ensures MemberRank(fields, name) == Ok(rank)
  {
  }

  /** Members as they are written are read back as the state they were written from. */
  lemma DecodesState(f: map<Key, Json>, c: ControlState)
    requires Fits(c) && forall name | name in KNOWN_MEMBERS :: Member(f, name) == Written(c, name)
    ensures ReadState(Object(f)) == Ok(c)
  {
    DecodesRank(f, StragglerRank, c.stragglerRank);
    DecodesText(f, StragglerDelay, c.stragglerDelay);
    DecodesRank(f, CrashRank, c.crashRank);
    DecodesText(f, CrashToken, c.crashToken);
    DecodesText(f, FabricMode, c.fabricMode);
    DecodesText(f, FabricTargetNode, c.fabricTargetNode);
    DecodesText(f, FabricDelay, c.fabricDelay);
  }

  /** Round trip: what the writer stores is what it reads back, up to normalisation. */
  lemma WriteRead(state: ControlState)
    requires Fits(state)
    ensures ReadState(Document(state)) == Ok(Normalized(state))
  {
    DocumentMembers(state);
    DecodesState(Document(state).fields, Normalized(state));
  }

  lemma ReadModeTwice(text: string)
    ensures ReadMode(text) != "" && ReadMode(ReadMode(text)) == ReadMode(text)
  {
    LowerTrimmed(text);
    LowerTwice(TrimSpace(text));
    NormalMode();
  }

  /** Normalising is idempotent, so rewriting what was read changes nothing. */
  lemma RewriteIsStable(state: ControlState)
    ensures Normalized(Normalized(state)) == Normalized(state)
    ensures Document(Normalized(state)) == Document(state)
  {
    ReadModeTwice(state.fabricMode);
  }

  /** The verdict on a written document, in terms of the state behind it. */
  lemma VerdictOnWritten(state: ControlState, parse: Parser)
    requires Fits(state)
    ensures Recovered(Document(state), parse)
       <==> && ReadMode(state.fabricMode) == "normal"
            && state.stragglerRank.None? && Blank(state.stragglerDelay)
            && state.crashRank.None? && Blank(state.crashToken)
  {
    DocumentMembers(state);
    WriteRead(state);
    ReadModeTwice(state.fabricMode);
    NormalMode();
    assert Blank("");
  }

  /** Soundness of the recovery check: if it accepts what the writer wrote, the worker injects nothing. */
  lemma WrittenVerdictIsSound(state: ControlState, parse: Parser, raw: Json -> string)
    requires Fits(state) && Recovered(Document(state), parse)
    ensures ReadControl(Document(state), parse, raw) == Ok(QUIET)
  {
    VerdictOnWritten(state, parse);
    DocumentMembers(state);
    RecoveredIsQuiet(Document(state), parse, raw);
  }

  // ---------------------------------------------------------------------------------------------
  // Mutations
  // ---------------------------------------------------------------------------------------------

  /** A read-modify-write of the stored document: the mutation, then one more generation. */
  function Mutated(state: ControlState): ControlState {
    state.(generation := Wrap64(state.generation + 1))
  }

  function Recover(state: ControlState): ControlState {
    ApplyFabric(state.(stragglerRank := None, stragglerDelay := "", crashRank := None, crashToken := ""),
                FabricControlForScenario("normal"))
  }

  lemma WrapStaysInRange(n: int)
    requires InRange64(n)
    ensures InRange64(Wrap64(n + 1)) && Wrap64(n + 1) != n
  {
  }

  lemma NormalScenario()
    ensures FabricControlForScenario("normal").mode == "normal"
  {
    TrimKeeps("normal");
    assert "normal"[0] == 'n';
  }

  lemma RecoverMode(state: ControlState)
    ensures ReadMode(Recover(state).fabricMode) == "normal"
  {
    NormalScenario();
    NormalMode();
  }

  lemma NormalMode()
    ensures TrimSpace("normal") == "normal" && ToLower("normal") == "normal"
  {
    TrimKeeps("normal");
  }

  /** Recovering from any prior state yields a document the check accepts and the worker reads as quiet. */
  lemma RecoverSucceeds(state: ControlState, parse: Parser, raw: Json -> string)
    requires InRange64(state.generation)
    ensures var doc := Document(Mutated(Recover(state)));
            Recovered(doc, parse) && ReadControl(doc, parse, raw) == Ok(QUIET)
  {
    var next := Mutated(Recover(state));
    WrapStaysInRange(state.generation);
    RecoverMode(state);
    VerdictOnWritten(next, parse);
    WrittenVerdictIsSound(next, parse, raw);
  }

  /** The id of the crash a worker would inject after reading a document, if it can read it. */
  function CrashIdOf(doc: Json, parse: Parser, raw: Json -> string): Option<string> {
    match ReadControl(doc, parse, raw)
    case Ok(control) => Some(CrashId(control))
    case Err => None
  }

  /** The crash injection a worker reads from a written document. */
  function CrashOf(state: ControlState): Option<CrashControl> {
    if state.crashRank.None? then None
    else Some(CrashControl(state.crashRank.value, state.crashToken != "", IntText(state.generation), state.crashToken))
  }

  lemma WrittenCrash(state: ControlState, raw: Json -> string)
    requires Fits(state)
    ensures var f := Document(state).fields;
            NestedStraggler !in f && NestedCrash !in f && ReadCrash(f, raw, None) == Ok(CrashOf(state))
  {
    DocumentMembers(state);
    var f := Document(state).fields;
    assert Given(f, Generation);
    DecodesText(f, CrashToken, state.crashToken);
  }

  /** A worker that can read a written document reads its crash injection. */
  lemma ReadsWrittenCrash(state: ControlState, parse: Parser, raw: Json -> string)
    requires Fits(state) && ReadControl(Document(state), parse, raw).Ok?
    ensures ReadControl(Document(state), parse, raw).value.crash == CrashOf(state)
  {
    WrittenCrash(state, raw);
    assert ReadNested(Document(state).fields, parse) == Ok((None, None));
  }

  /** A state that injects a crash and nothing else. */
  function Injected(rank: int, token: string, generation: int): ControlState {
    ControlState(generation, None, "", Some(rank), token, "normal", "", "")
  }

  /** What a worker makes of it. */
  function InjectedControl(rank: int, token: string, generation: int): Control {
    Control(None, CrashOf(Injected(rank, token, generation)), "normal", "", 0)
  }

  lemma InjectedMembers(rank: int, token: string, generation: int)
    ensures var f := Document(Injected(rank, token, generation)).fields;
            && StragglerRank !in f && FabricTargetNode !in f && FabricDelay !in f
            && FabricMode in f && f[FabricMode] == String("normal")
  {
    var state := Injected(rank, token, generation);
    InjectedIsNormalized(rank, token, generation);
    DocumentMembers(state);
    QuietMembers(Document(state).fields, state);
  }

  lemma InjectedIsNormalized(rank: int, token: string, generation: int)
    ensures Normalized(Injected(rank, token, generation)) == Injected(rank, token, generation)
  {
    NormalMode();
  }

  /** The members other than those of the crash. */
  lemma QuietMembers(f: map<Key, Json>, c: ControlState)
    requires forall name :: Member(f, name) == Written(c, name) && (name in f <==> Written(c, name) != Null)
    requires c.stragglerRank.None? && c.fabricMode == "normal" && c.fabricTargetNode == "" && c.fabricDelay == ""
    ensures StragglerRank !in f && FabricTargetNode !in f && FabricDelay !in f
    ensures FabricMode in f && f[FabricMode] == String("normal")
  {
    assert Written(c, FabricMode) == String("normal");
  }

  lemma InjectedIsRead(rank: int, token: string, generation: int, parse: Parser, raw: Json -> string)
    requires 0 <= rank && InRange64(rank) && InRange64(generation)
    ensures ReadControl(Document(Injected(rank, token, generation)), parse, raw)
         == Ok(InjectedControl(rank, token, generation))
  {
    WrittenCrash(Injected(rank, token, generation), raw);
    InjectedMembers(rank, token, generation);
    var f := Document(Injected(rank, token, generation)).fields;
    assert ReadNested(f, parse) == Ok((None, None)) && ReadStraggler(f, parse, None) == Ok(None);
    assert ReadFabricDelay(f, parse) == Ok(0) && MemberText(f, FabricTargetNode) == Ok("");
    NormalMode();
    assert ReadMode("normal") == "normal" && TrimSpace("") == "";
  }

  /** A worker that can read a written crash injection names it by its generation, whatever its token. */
  lemma WrittenCrashId(state: ControlState, parse: Parser, raw: Json -> string)
    requires Fits(state) && state.crashRank.Some? && state.crashToken != ""
    requires CrashIdOf(Document(state), parse, raw).Some?
    ensures CrashIdOf(Document(state), parse, raw) == Some(IntText(state.generation))
  {
    ReadsWrittenCrash(state, parse, raw);
    assert IntText(state.generation) != "";
  }

  /** The next generation never has the text of the one before, not even where it wraps. */
  lemma NextGenerationText(n: int)
    requires InRange64(n)
    ensures InRange64(Wrap64(n + 1)) && IntText(Wrap64(n + 1)) != IntText(n) && IntText(n) != ""
  {
    WrapStaysInRange(n);
    if IntText(Wrap64(n + 1)) == IntText(n) {
      IntTextInjective(Wrap64(n + 1), n);
    }
  }

  predicate SameCrash(a: ControlState, b: ControlState) {
    a.crashRank == b.crashRank && a.crashToken == b.crashToken
  }

  /** A written crash injection is one-shot per generation, not per token: any further mutation that leaves it in place
      gives the worker an id that differs from the one before, so the same injection is armed again. */
  lemma MutationRearmsCrash(state: ControlState, mutated: ControlState, parse: Parser, raw: Json -> string)
    requires Fits(state) && Fits(mutated) && mutated.generation == state.generation
    requires state.crashRank.Some? && state.crashToken != "" && SameCrash(state, mutated)
    requires CrashIdOf(Document(state), parse, raw).Some? && CrashIdOf(Document(Mutated(mutated)), parse, raw).Some?
    ensures CrashIdOf(Document(state), parse, raw) == Some(IntText(state.generation))
    ensures CrashIdOf(Document(Mutated(mutated)), parse, raw) == Some(IntText(Wrap64(state.generation + 1)))
    ensures IntText(Wrap64(state.generation + 1)) != IntText(state.generation)
  {
    NextGenerationText(state.generation);
    WrittenCrashId(state, parse, raw);
    WrittenCrashId(Mutated(mutated), parse, raw);
  }

  /** Synchronising a scenario is such a mutation: it touches only the fabric fields. */
  lemma SyncKeepsCrash(state: ControlState, fabric: FabricControl)
    ensures SameCrash(state, ApplyFabric(state, fabric))
    ensures ApplyFabric(state, fabric).generation == state.generation
    ensures ApplyFabric(state, fabric).stragglerRank == state.stragglerRank
    ensures ApplyFabric(state, fabric).stragglerDelay == state.stragglerDelay
  {
  }

  /** So applying any GPU scenario while a crash injection stands arms that injection again. */
  lemma SyncRearmsCrash(state: ControlState, scenario: string, parse: Parser, raw: Json -> string)
    requires Fits(state) && state.crashRank.Some? && state.crashToken != ""
    requires CrashIdOf(Document(state), parse, raw).Some?
    requires CrashIdOf(Document(Mutated(ApplyFabric(state, FabricControlForScenario(scenario)))), parse, raw).Some?
    ensures CrashIdOf(Document(Mutated(ApplyFabric(state, FabricControlForScenario(scenario)))), parse, raw)
         != CrashIdOf(Document(state), parse, raw)
  {
    var synced := ApplyFabric(state, FabricControlForScenario(scenario));
    SyncKeepsCrash(state, FabricControlForScenario(scenario));
    MutationRearmsCrash(state, synced, parse, raw);
  }
}
