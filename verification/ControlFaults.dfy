/** The faults' round trip: what a worker makes of the document a state is written as, and of a nested one, in terms of
    nothing but their own fields. */
module ControlFaults {
  import opened Prelude
  import opened Text
  import opened ControlDocument

  // ---------------------------------------------------------------------------------------------
  // Written documents
  // ---------------------------------------------------------------------------------------------

  /** A delay text as the parser reads it; an empty one is not written, and so reads as none. */
  function DelayOf(text: string, parsed: Option<int>): Option<int> {
    if text == "" then Some(0) else parsed
  }

  /** The state asks for no fabric fault. */
  predicate AsksNormal(state: ControlState) {
    ToLower(TrimSpace(state.fabricMode)) == "" || ToLower(TrimSpace(state.fabricMode)) == "normal"
  }

  lemma DecodesMembers(f: map<Key, Json>, c: ControlState)
    requires forall name :: Member(f, name) == Written(c, name) && (name in f <==> Written(c, name) != Null)
    ensures MemberText(f, FabricMode) == Ok(c.fabricMode) && MemberText(f, FabricTargetNode) == Ok(c.fabricTargetNode)
    ensures NestedStraggler !in f && NestedCrash !in f
    ensures StragglerRank in f <==> c.stragglerRank.Some?
    ensures c.stragglerRank.Some? ==> f[StragglerRank] == Int(c.stragglerRank.value)
    ensures StragglerDelay in f <==> c.stragglerDelay != ""
    ensures c.stragglerDelay != "" ==> f[StragglerDelay] == String(c.stragglerDelay)
    ensures FabricDelay in f <==> c.fabricDelay != ""
    ensures c.fabricDelay != "" ==> f[FabricDelay] == String(c.fabricDelay)
  {
    DecodesText(f, FabricMode, c.fabricMode);
    DecodesText(f, FabricTargetNode, c.fabricTargetNode);
    assert Member(f, StragglerRank) == Written(c, StragglerRank) && Member(f, StragglerDelay) == Written(c, StragglerDelay);
    assert Member(f, FabricDelay) == Written(c, FabricDelay);
    assert Written(c, NestedStraggler) == Null && Written(c, NestedCrash) == Null;
  }

  lemma WrittenStraggler(f: map<Key, Json>, c: ControlState, parse: Parser)
    requires forall name :: Member(f, name) == Written(c, name) && (name in f <==> Written(c, name) != Null)
    requires c.stragglerRank.Some? ==> InRange64(c.stragglerRank.value)
    ensures var delay := DelayOf(c.stragglerDelay, parse(c.stragglerDelay));
            ReadStraggler(f, parse, None) == if c.stragglerRank.None? then Ok(None)
                                             else if delay.None? then Err
                                             else Ok(Some(Straggler(c.stragglerRank.value, delay.value)))
  {
    DecodesMembers(f, c);
  }

  lemma WrittenFabricDelay(f: map<Key, Json>, c: ControlState, parse: Parser)
    requires forall name :: Member(f, name) == Written(c, name) && (name in f <==> Written(c, name) != Null)
    ensures var delay := DelayOf(c.fabricDelay, parse(TrimSpace(c.fabricDelay)));
            ReadFabricDelay(f, parse) == if delay.Some? && delay.value >= 0 then Ok(delay.value) else Err
  {
    DecodesMembers(f, c);
  }

  /** What a worker reads from the parts of a written document. */
  lemma WrittenParts(state: ControlState, parse: Parser, raw: Json -> string)
    requires Fits(state)
    ensures var f, c := Document(state).fields, Normalized(state);
            var delay := DelayOf(state.stragglerDelay, parse(state.stragglerDelay));
            var fabricDelay := DelayOf(c.fabricDelay, parse(TrimSpace(c.fabricDelay)));
            && ReadNested(f, parse) == Ok((None, None))
            && ReadStraggler(f, parse, None) == (if state.stragglerRank.None? then Ok(None)
                                                 else if delay.None? then Err
                                                 else Ok(Some(Straggler(state.stragglerRank.value, delay.value))))
            && ReadCrash(f, raw, None) == Ok(CrashOf(state))
            && MemberText(f, FabricMode) == Ok(c.fabricMode) && MemberText(f, FabricTargetNode) == Ok(c.fabricTargetNode)
            && ReadFabricDelay(f, parse) == if fabricDelay.Some? && fabricDelay.value >= 0 then Ok(fabricDelay.value) else Err
  {
    DocumentMembers(state);
    WrittenCrash(state, raw);
    DecodesMembers(Document(state).fields, Normalized(state));
    WrittenStraggler(Document(state).fields, Normalized(state), parse);
    WrittenFabricDelay(Document(state).fields, Normalized(state), parse);
  }

  /** All faults of a state are read. They are exactly when its ranks are not negative and the delays it asks for are
      durations that are not negative; then the straggler has its own delay, the crash is named by the generation, and,
      unless the mode is normal, the lowered mode comes with its own target and delay, without the white space around
      them. */
  predicate ReadsAs(read: Result<Control>, state: ControlState, parse: Parser) {
    var slow := if state.stragglerRank.None? then Some(0)
                else DelayOf(state.stragglerDelay, parse(state.stragglerDelay));
    var normal := AsksNormal(state);
    var delay := if normal then Some(0) else DelayOf(state.fabricDelay, parse(TrimSpace(state.fabricDelay)));
    && (read.Ok? <==>
          && (state.stragglerRank.Some? ==> state.stragglerRank.value >= 0)
          && (state.crashRank.Some? ==> state.crashRank.value >= 0)
          && slow.Some? && slow.value >= 0 && delay.Some? && delay.value >= 0)
    && (read.Ok? ==> read.value == Control(
          if state.stragglerRank.None? then None else Some(Straggler(state.stragglerRank.value, slow.value)),
          if state.crashRank.None? then None
          else Some(CrashControl(state.crashRank.value, state.crashToken != "", IntText(state.generation),
                                 state.crashToken)),
          if normal then "normal" else ToLower(TrimSpace(state.fabricMode)),
          if normal then "" else TrimSpace(state.fabricTargetNode),
          delay.value))
  }

  /** Every fault survives being written and read. */
  lemma WrittenIsRead(state: ControlState, parse: Parser, raw: Json -> string)
    requires Fits(state)
    ensures ReadsAs(ReadControl(Document(state), parse, raw), state, parse)
  {
    WrittenParts(state, parse, raw);
    ReadModeTwice(state.fabricMode);
    assert TrimSpace("") == "";
  }

  // ---------------------------------------------------------------------------------------------
  // Nested documents
  // ---------------------------------------------------------------------------------------------

  /** A delay inside a nested straggler: none, a text, or a number of seconds. */
  function NestedDelay(s: map<Key, Json>, parse: Parser): Option<int> {
    if Delay !in s then Some(0)
    else match s[Delay]
         case Null => parse("")
         case String(text) => parse(text)
         case Int(n) => Some(n * 1_000_000_000)
         case Decimal(x) => Some(SecondsToDuration(x))
         case _ => None
  }

  lemma DecimalSeconds(x: real)
    ensures x >= 0.0 ==> var ns := SecondsToDuration(x); ns as real <= x * 1_000_000_000.0 < (ns + 1) as real
    ensures SecondsToDuration(-x) == -SecondsToDuration(x)
  {
  }

  /** A document with nothing but a nested straggler or crash, or both, is read as those, with the delay written as text or
      as a number of seconds. */
  lemma NestedIsRead(f: map<Key, Json>, s: map<Key, Json>, rank: int, c: CrashControl, parse: Parser, raw: Json -> string)
    requires f.Keys <= {NestedStraggler, NestedCrash} && f != map[]
    requires NestedStraggler in f ==> f[NestedStraggler] == Object(s) && Rank in s && s[Rank] == Int(rank) && InRange64(rank)
    requires NestedCrash in f ==>
               && f[NestedCrash] == Object(map[Rank := Int(c.rank), Enabled := Bool(c.enabled),
                                               Generation := String(c.generation), Token := String(c.token)])
               && InRange64(c.rank)
    ensures var read, delay := ReadControl(Object(f), parse, raw), NestedDelay(s, parse);
            && (read.Ok? <==>
                  && (NestedStraggler in f ==> rank >= 0 && delay.Some? && delay.value >= 0)
                  && (NestedCrash in f ==> c.rank >= 0))
            && (read.Ok? ==> read.value == Control(
                  if NestedStraggler in f then Some(Straggler(rank, delay.value)) else None,
                  if NestedCrash in f then Some(c) else None, "normal", "", 0))
  {
    NestedStragglerIsRead(f, s, rank, parse);
    NestedCrashIsRead(f, c);
    NothingFlat(f, parse, raw);
  }

  /** Flat members win over nested ones, and a null one clears them. */
  lemma FlatWins(f: map<Key, Json>, parse: Parser, raw: Json -> string)
    requires ReadControl(Object(f), parse, raw).Ok? && StragglerRank in f && CrashRank in f
    ensures ReadControl(Object(f - {NestedStraggler, NestedCrash}), parse, raw) == ReadControl(Object(f), parse, raw)
    ensures var control := ReadControl(Object(f), parse, raw).value;
            && (control.straggler.None? <==> f[StragglerRank] == Null)
            && (control.straggler.Some? ==> f[StragglerRank] == Int(control.straggler.value.rank))
            && (control.crash.None? <==> f[CrashRank] == Null)
            && (control.crash.Some? ==> f[CrashRank] == Int(control.crash.value.rank))
  {
    var nested := ReadNested(f, parse).value;
    FlatRead(f, parse, raw, nested.0, nested.1);
    RankRead(f, parse, raw, nested.0, nested.1);
  }

  lemma FlatRead(f: map<Key, Json>, parse: Parser, raw: Json -> string, s: Option<Straggler>, c: Option<CrashControl>)
    requires StragglerRank in f && CrashRank in f
    ensures var flat := f - {NestedStraggler, NestedCrash};
            && ReadNested(flat, parse) == Ok((None, None))
            && ReadStraggler(flat, parse, None) == ReadStraggler(f, parse, s)
            && ReadCrash(flat, raw, None) == ReadCrash(f, raw, c)
            && MemberText(flat, FabricMode) == MemberText(f, FabricMode)
            && MemberText(flat, FabricTargetNode) == MemberText(f, FabricTargetNode)
            && ReadFabricDelay(flat, parse) == ReadFabricDelay(f, parse)
  {
  }

  lemma RankRead(f: map<Key, Json>, parse: Parser, raw: Json -> string, s: Option<Straggler>, c: Option<CrashControl>)
    requires StragglerRank in f && CrashRank in f
    ensures var straggler := ReadStraggler(f, parse, s);
            straggler.Ok? ==>
              && (straggler.value.None? <==> f[StragglerRank] == Null)
              && (straggler.value.Some? ==> f[StragglerRank] == Int(straggler.value.value.rank))
    ensures var crash := ReadCrash(f, raw, c);
            crash.Ok? ==>
              && (crash.value.None? <==> f[CrashRank] == Null)
              && (crash.value.Some? ==> f[CrashRank] == Int(crash.value.value.rank))
  {
  }

  lemma NestedStragglerIsRead(f: map<Key, Json>, s: map<Key, Json>, rank: int, parse: Parser)
    requires NestedStraggler in f ==> f[NestedStraggler] == Object(s) && Rank in s && s[Rank] == Int(rank) && InRange64(rank)
    ensures DecodeStraggler(Member(f, NestedStraggler), parse) ==
            if NestedStraggler !in f then Ok(None)
            else match NestedDelay(s, parse)
                 case Some(delay) => Ok(Some(Straggler(rank, delay)))
                 case None => Err
  {
  }

  lemma NestedCrashIsRead(f: map<Key, Json>, c: CrashControl)
    requires NestedCrash in f ==>
               && f[NestedCrash] == Object(map[Rank := Int(c.rank), Enabled := Bool(c.enabled),
                                               Generation := String(c.generation), Token := String(c.token)])
               && InRange64(c.rank)
    ensures DecodeCrash(Member(f, NestedCrash)) == Ok(if NestedCrash in f then Some(c) else None)
  {
  }

  lemma NothingFlat(f: map<Key, Json>, parse: Parser, raw: Json -> string)
    requires f.Keys <= {NestedStraggler, NestedCrash}
    ensures forall s :: ReadStraggler(f, parse, s) == Ok(s)
    ensures forall c :: ReadCrash(f, raw, c) == Ok(c)
    ensures MemberText(f, FabricMode) == Ok("") && MemberText(f, FabricTargetNode) == Ok("")
    ensures ReadFabricDelay(f, parse) == Ok(0)
    ensures ReadMode("") == "normal" && TrimSpace("") == ""
  {
    assert StragglerRank !in f && CrashRank !in f && FabricMode !in f && FabricTargetNode !in f && FabricDelay !in f;
  }

  // ---------------------------------------------------------------------------------------------
  // Documents by hand
  // ---------------------------------------------------------------------------------------------

  /** A member that is absent or null, or a text with nothing but white space in it. */
  predicate NoText(f: map<Key, Json>, name: Key) {
    name in f ==> f[name] == Null || (f[name].String? && Blank(f[name].s))
  }

  predicate NoRank(f: map<Key, Json>, name: Key) {
    name in f ==> f[name] == Null
  }

  lemma NothingRead(f: map<Key, Json>, name: Key)
    ensures NoText(f, name) <==> MemberText(f, name).Ok? && Blank(MemberText(f, name).value)
    ensures NoRank(f, name) <==> MemberRank(f, name) == Ok(None)
  {
    assert Blank("");
  }

  lemma ModeRead(f: map<Key, Json>)
    ensures MemberText(f, FabricMode).Ok? && ToLower(TrimSpace(MemberText(f, FabricMode).value)) in {"", "normal"} <==>
            (FabricMode in f && f[FabricMode] != Null ==>
               f[FabricMode].String? && ToLower(TrimSpace(f[FabricMode].s)) in {"", "normal"})
  {
    assert TrimSpace("") == "" && ToLower("") == "";
  }

  lemma DelayRead(f: map<Key, Json>, parse: Parser)
    ensures var delay := MemberText(f, FabricDelay);
            delay.Ok? && (Blank(delay.value) || parse(TrimSpace(delay.value)) == Some(0)) <==>
            NoText(f, FabricDelay) || (f[FabricDelay].String? && parse(TrimSpace(f[FabricDelay].s)) == Some(0))
  {
    assert Blank("");
  }

  /** What the strict reader asks of the members one by one. */
  lemma RecoveredByMember(f: map<Key, Json>, parse: Parser)
    ensures Recovered(Object(f), parse) <==>
            && f.Keys <= KNOWN_MEMBERS && DecodeInt(Member(f, Generation)).Ok?
            && MemberRank(f, StragglerRank) == Ok(None) && MemberRank(f, CrashRank) == Ok(None)
            && MemberText(f, StragglerDelay).Ok? && Blank(MemberText(f, StragglerDelay).value)
            && MemberText(f, CrashToken).Ok? && Blank(MemberText(f, CrashToken).value)
            && MemberText(f, FabricTargetNode).Ok? && Blank(MemberText(f, FabricTargetNode).value)
            && MemberText(f, FabricMode).Ok? && ToLower(TrimSpace(MemberText(f, FabricMode).value)) in {"", "normal"}
            && MemberText(f, FabricDelay).Ok?
            && (Blank(MemberText(f, FabricDelay).value) || parse(TrimSpace(MemberText(f, FabricDelay).value)) == Some(0))
  {
  }

  /** The documents the recovery check accepts, whoever wrote them: no member it does not know, no ranks, a generation that is
      a number, and texts that ask for nothing; a fabric delay may also be a duration of zero. */
  lemma AcceptedExactly(f: map<Key, Json>, parse: Parser)
    ensures Recovered(Object(f), parse) <==>
            && (forall name | name in f ::
                  name in {Generation, StragglerRank, StragglerDelay, CrashRank, CrashToken, FabricMode, FabricTargetNode,
                           FabricDelay})
            && (Generation in f && f[Generation] != Null ==> f[Generation].Int? && InRange64(f[Generation].n))
            && NoRank(f, StragglerRank) && NoRank(f, CrashRank)
            && NoText(f, StragglerDelay) && NoText(f, CrashToken) && NoText(f, FabricTargetNode)
            && (FabricMode in f && f[FabricMode] != Null ==>
                  && f[FabricMode].String?
                  && ToLower(TrimSpace(f[FabricMode].s)) in {"", "normal"})
            && (NoText(f, FabricDelay) || (f[FabricDelay].String? && parse(TrimSpace(f[FabricDelay].s)) == Some(0)))
  {
    RecoveredByMember(f, parse);
    NothingRead(f, StragglerRank);
    NothingRead(f, CrashRank);
    NothingRead(f, StragglerDelay);
    NothingRead(f, CrashToken);
    NothingRead(f, FabricTargetNode);
    ModeRead(f);
    DelayRead(f, parse);
  }
}
