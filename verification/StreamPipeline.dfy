/** The driver: upstream chunks in, one complete message of events out. */
module StreamPipeline {
  import opened Strings
  import opened Wrappers
  import opened ThinkParser
  import opened SseTrace
  import opened ToolCalls
  import opened CallLogs
  import opened SseBuilder
  import opened Translation
  import opened Upstream
  import H = HeuristicParser

  /** The stop reasons the client knows. */
  function MapStopReason(finish: string): string {
    match finish
    case "length" => "max_tokens"
    case "tool_calls" => "tool_use"
    case _ => "end_turn"
  }

  predicate StoppedFor(last: Event, finish: string) {
    && last == MessageDelta(MapStopReason(finish))
    && (last == MessageDelta("max_tokens") <==> finish == "length")
    && (last == MessageDelta("tool_use") <==> finish == "tool_calls")
    && (last == MessageDelta("end_turn") <==> finish != "length" && finish != "tool_calls")
  }

  /** Processing the delta at position j, after all the deltas before it, raises an exception. */
  predicate RaisesAt(codec: Codec, deltas: seq<ToolDelta>, j: nat)
    requires j < |deltas|
  {
    Raises(codec, LogAll(deltas[..j]), deltas[j])
  }

  // ---------------------------------------------------------------- native tool calls

  /** Every call's state accounts for its fragments. */
  ghost predicate Tracks(codec: Codec, tools: map<int, ToolCallState>, payloads: map<int, seq<string>>, log: ToolLog, healthy: bool) {
    && tools.Keys == log.Keys
    && (forall k :: k in payloads <==> k in tools && tools[k].started)
    && forall k :: k in tools ==> Accounts(codec, tools[k], log[k], if k in payloads then payloads[k] else [], healthy)
  }

  lemma TracksSet(codec: Codec, tools: map<int, ToolCallState>, payloads: map<int, seq<string>>, log: ToolLog, healthy: bool,
                  k: int, st: ToolCallState, e: ToolEntry, payloads': map<int, seq<string>>, healthy': bool)
    requires Tracks(codec, tools, payloads, log, healthy) && (healthy' ==> healthy)
    requires st.started ==> k in payloads' && payloads' == payloads[k := payloads'[k]]
    requires !st.started ==> k !in payloads && payloads' == payloads
    requires Accounts(codec, st, e, if st.started then payloads'[k] else [], healthy')
    ensures Tracks(codec, tools[k := st], payloads', log[k := e], healthy')
  {
    hide ArgsOf, FirstJson, Join, Inserted;
  }

  lemma TracksFacts(codec: Codec, tools: map<int, ToolCallState>, payloads: map<int, seq<string>>, log: ToolLog, healthy: bool, k: int)
    requires Tracks(codec, tools, payloads, log, healthy)
    ensures k in tools <==> k in log
    ensures k in payloads <==> k in tools && tools[k].started
    ensures k in tools ==> tools[k].name == log[k].name
    ensures k in tools ==> Accounts(codec, tools[k], log[k], if k in payloads then payloads[k] else [], healthy)
    ensures |tools| == |log|
  {
    assert |tools.Keys| == |log.Keys|;
  }

  lemma Renamed(codec: Codec, tools: map<int, ToolCallState>, payloads: map<int, seq<string>>, log: ToolLog, k: int, name: string)
    requires Tracks(codec, tools, payloads, log, true)
    ensures k in tools ==> Tracks(codec, tools[k := tools[k].(name := name)], payloads, log[k := ToolEntry(name, log[k].frags)], true)
    ensures k !in tools ==> Tracks(codec, tools[k := ToolCallState(-1, name, false, "", false)], payloads, log[k := ToolEntry(name, [])], true)
  {
    hide FirstJson, Join;
    TracksFacts(codec, tools, payloads, log, true, k);
    if k in tools {
      if k in payloads {
        assert payloads == payloads[k := payloads[k]];
      }
      TracksSet(codec, tools, payloads, log, true, k, tools[k].(name := name), ToolEntry(name, log[k].frags), payloads, true);
    } else {
      FreshCall(codec, name, false, -1);
      TracksSet(codec, tools, payloads, log, true, k, ToolCallState(-1, name, false, "", false), ToolEntry(name, []), payloads, true);
    }
  }

  lemma Started(codec: Codec, tools: map<int, ToolCallState>, payloads: map<int, seq<string>>, log: ToolLog, k: int, index: int, name: string)
    requires Tracks(codec, tools, payloads, log, true)
    requires k in tools ==> !tools[k].started
    ensures k in tools ==> Tracks(codec, tools[k := tools[k].(blockIndex := index, started := true)], payloads[k := []], log, true)
    ensures k !in tools ==> Tracks(codec, tools[k := ToolCallState(index, name, true, "", false)], payloads[k := []], log[k := ToolEntry(name, [])], true)
  {
    hide FirstJson, Join;
    TracksFacts(codec, tools, payloads, log, true, k);
    if k in tools {
      assert log == log[k := log[k]];
      TracksSet(codec, tools, payloads, log, true, k, tools[k].(blockIndex := index, started := true), log[k], payloads[k := []], true);
    } else {
      FreshCall(codec, name, true, index);
      TracksSet(codec, tools, payloads, log, true, k, ToolCallState(index, name, true, "", false), ToolEntry(name, []), payloads[k := []], true);
    }
  }

  lemma FreshCall(codec: Codec, name: string, started: bool, index: int)
    ensures Accounts(codec, ToolCallState(index, name, started, "", false), ToolEntry(name, []), [], true)
  {
  }

  /** Names the call and starts its block once it has a name or an id, or at the latest with its arguments. */
  method OpenToolCall(sse: SSEBuilder, codec: Codec, k: int, tc: ToolDelta, ghost log: ToolLog)
    requires sse.Valid() && sse.OpenContent().None? && tc.ToolDelta? && k == Key(log, tc)
    requires Tracks(codec, sse.toolStates, sse.Payloads(), log, true)
    modifies sse`trace, sse`nextIndex, sse`toolStates, sse`toolOrder
    ensures sse.Valid() && Content(sse.trace) == old(Content(sse.trace))
    ensures tc.args != "" ==> k in sse.toolStates && sse.toolStates[k].started
    ensures Tracks(codec, sse.toolStates, sse.Payloads(), Opened(log, tc), true)
    ensures sse.Sent() == old(sse.Sent()).(payloads := sse.Payloads(), names := ShownStep(old(sse.Sent()).names, log, tc))
  {
    hide SSEBuilder.Valid, AcceptAll, Content, Deltas, DistinctBlocks, SentOf, OpenTools, ListsKeys, ArgsOf, FirstJson, Tracks, Accounts;
    TracksFacts(codec, sse.toolStates, sse.Payloads(), log, true, k);
    StartedHaveNames(sse.trace, sse.toolStates, k);
    ghost var log1 := log;
    if tc.name.Some? {
      Renamed(codec, sse.toolStates, sse.Payloads(), log, k, NameAfter(log, tc));
      sse.RegisterToolName(k, tc.name.value);
      log1 := Opened(log, tc);
    } else if k in log {
      assert log == log[k := log[k]];
    }
    TracksFacts(codec, sse.toolStates, sse.Payloads(), log1, true, k);
    if k !in sse.toolStates || !sse.toolStates[k].started {
      var name := if k in sse.toolStates then sse.toolStates[k].name else "";
      if name != "" || tc.id != "" {
        Started(codec, sse.toolStates, sse.Payloads(), log1, k, sse.nextIndex, name);
        sse.StartToolBlock(k, name);
        log1 := Opened(log, tc);
      }
    }
    TracksFacts(codec, sse.toolStates, sse.Payloads(), log1, true, k);
    if tc.args != "" {
      if k !in sse.toolStates || !sse.toolStates[k].started {
        var known := if k in sse.toolStates then sse.toolStates[k].name else "";
        var name := if known != "" then known else "tool_call";
        Started(codec, sse.toolStates, sse.Payloads(), log1, k, sse.nextIndex, name);
        sse.StartToolBlock(k, name);
        log1 := Opened(log, tc);
      }
    }
  }

  lemma StartedHaveNames(trace: seq<Event>, tools: map<int, ToolCallState>, k: int)
    ensures k in SentOf(trace, tools).names <==> k in SentOf(trace, tools).payloads
  {
  }

  /** Passes an argument fragment on, or holds it for a Task call; false when an exception is raised. */
  method SendArguments(sse: SSEBuilder, codec: Codec, k: int, args: string, ghost log: ToolLog) returns (ok: bool)
    requires sse.Valid() && k in sse.toolStates && sse.toolStates[k].started && args != ""
    requires Tracks(codec, sse.toolStates, sse.Payloads(), log, true)
    modifies sse`trace, sse`toolStates
    ensures sse.Valid() && Content(sse.trace) == old(Content(sse.trace))
    ensures k in log && Tracks(codec, sse.toolStates, sse.Payloads(),
                               log[k := ToolEntry(log[k].name, log[k].frags + [Frag(log[k].name, args)])], ok)
    ensures sse.Sent() == old(sse.Sent()).(payloads := sse.Payloads())
    ensures k in log && (ok <==> !(log[k].name == TASK && TaskBreaks(codec, log[k].frags, args)))
  {
    hide AcceptAll, Content, Deltas, DistinctBlocks, SentOf, OpenTools, ListsKeys, ArgsOf, FirstJson, Tracks, Accounts, TaskPayload;
    TracksFacts(codec, sse.toolStates, sse.Payloads(), log, true, k);
    ghost var tools, payloads := sse.toolStates, sse.Payloads();
    ghost var entry := ToolEntry(log[k].name, log[k].frags + [Frag(log[k].name, args)]);
    if sse.toolStates[k].name == TASK {
      ok := true;
      var parsed := sse.BufferTaskArgs(codec, k, args);
      if parsed.Complete? {
        sse.EmitToolDelta(k, codec.dumps(parsed.args));
      } else if parsed.NotAnObject? {
        ok := false;
      }
      AccountsBreak(codec, tools[k], log[k], payloads[k], args);
      AccountsTask(codec, tools[k], log[k], payloads[k], args, sse.toolStates[k], sse.Payloads()[k]);
      assert sse.Payloads() == payloads[k := sse.Payloads()[k]];
      TracksSet(codec, tools, payloads, log, true, k, sse.toolStates[k], entry, sse.Payloads(), ok);
      assert sse.toolStates == tools[k := sse.toolStates[k]];
      return;
    }
    sse.EmitToolDelta(k, args);
    AccountsRaw(codec, tools[k], log[k], payloads[k], tools[k].name, args);
    TracksSet(codec, tools, payloads, log, true, k, tools[k], entry, sse.Payloads(), true);
    assert sse.toolStates == tools[k := tools[k]];
    ok := true;
  }

  /** One tool-call delta; false when an exception is raised. */
  method ProcessToolCall(sse: SSEBuilder, codec: Codec, tc: ToolDelta, ghost log: ToolLog) returns (ok: bool)
    requires sse.Valid() && sse.OpenContent().None?
    requires Tracks(codec, sse.toolStates, sse.Payloads(), log, true)
    modifies sse`trace, sse`nextIndex, sse`toolStates, sse`toolOrder
    ensures sse.Valid() && Content(sse.trace) == old(Content(sse.trace))
    ensures Tracks(codec, sse.toolStates, sse.Payloads(), LogStep(log, tc), ok)
    ensures sse.Sent() == old(sse.Sent()).(payloads := sse.Payloads(), names := ShownStep(old(sse.Sent()).names, log, tc))
    ensures ok <==> !Raises(codec, log, tc)
  {
    hide AcceptAll, Content, Deltas, DistinctBlocks, SentOf, OpenTools, ListsKeys, ArgsOf, FirstJson, Tracks, NameAfter, TaskBreaks;
    if tc.Malformed? {
      TracksWeaken(codec, sse.toolStates, sse.Payloads(), log);
      return false;
    }
    TracksFacts(codec, sse.toolStates, sse.Payloads(), log, true, 0);
    var k := if tc.index < 0 then |sse.toolStates| else tc.index;
    OpenToolCall(sse, codec, k, tc, log);
    ok := true;
    if tc.args != "" {
      ok := SendArguments(sse, codec, k, tc.args, Opened(log, tc));
    }
  }

  lemma TracksWeaken(codec: Codec, tools: map<int, ToolCallState>, payloads: map<int, seq<string>>, log: ToolLog)
    requires Tracks(codec, tools, payloads, log, true)
    ensures Tracks(codec, tools, payloads, log, false)
  {
    hide ArgsOf, FirstJson, Join, Inserted;
  }

  // ---------------------------------------------------------------- reasoning and text

  method ShowThinking(sse: SSEBuilder, s: string)
    requires sse.Valid()
    modifies sse`trace, sse`nextIndex, sse`thinkingIndex, sse`thinkingStarted, sse`textStarted
    ensures sse.Valid() && sse.Sent() == old(sse.Sent())
    ensures Content(sse.trace) == old(Content(sse.trace)) + Label(Thinking, s)
  {
    sse.EnsureThinkingBlock();
    sse.EmitThinkingDelta(s);
  }

  method ShowText(sse: SSEBuilder, s: string)
    requires sse.Valid()
    modifies sse`trace, sse`nextIndex, sse`textIndex, sse`thinkingStarted, sse`textStarted
    ensures sse.Valid() && sse.Sent() == old(sse.Sent()) && sse.textIndex != -1
    ensures Content(sse.trace) == old(Content(sse.trace)) + Label(Text, s)
  {
    sse.EnsureTextBlock();
    sse.EmitTextDelta(s);
  }

  /** A call recovered from text is sent as a whole block. */
  method ShowToolUse(sse: SSEBuilder, codec: Codec, tool: H.ToolUse)
    requires sse.Valid()
    modifies sse`trace, sse`nextIndex, sse`thinkingStarted, sse`textStarted
    ensures sse.Valid() && Content(sse.trace) == old(Content(sse.trace))
    ensures sse.Sent() == old(sse.Sent()).(recovered := old(sse.Sent()).recovered + CallMarks(codec, PlacedAt([tool], |Content(sse.trace)|)))
    ensures ToldInFull(codec, PlacedAt([tool], |Content(sse.trace)|), sse.Sent().recovered[|old(sse.Sent()).recovered|..])
  {
    hide AcceptAll, Content, Deltas, DistinctBlocks, SentOf, OpenTools, ListsKeys, ToldInFull;
    MarksTell(codec, PlacedAt([tool], |Content(sse.trace)|));
    OneCall(codec, tool, Content(sse.trace));
    sse.CloseContentBlocks();
    sse.EmitWholeBlock(ToolBlock(tool.name), InputJsonDelta, codec.dumps(ToolInput(tool)));
  }

  lemma OneCall(codec: Codec, tool: H.ToolUse, shown: seq<Labelled>)
    ensures CallMarks(codec, PlacedAt([tool], |shown|)) == WholeMarks(ToolBlock(tool.name), codec.dumps(ToolInput(tool)), |shown|)
    ensures shown + [] == shown && Fits(ToolBlock(tool.name), InputJsonDelta)
  {
    assert PlacedAt([tool], |shown|)[..0] == [];
  }

  /** All that the reasoning channels say is shown as thinking. */
  method ShowReasoning(sse: SSEBuilder, reasoning: string, extra: seq<string>)
    requires sse.Valid()
    modifies sse`trace, sse`nextIndex, sse`thinkingIndex, sse`thinkingStarted, sse`textStarted
    ensures sse.Valid() && sse.Sent() == old(sse.Sent())
    ensures Content(sse.trace) == old(Content(sse.trace)) + Label(Thinking, reasoning + Join(extra))
  {
    hide AcceptAll, Content, Deltas, DistinctBlocks, SentOf, OpenTools, ListsKeys, Label, Join;
    ghost var shown := Content(sse.trace);
    NoThinking(shown, reasoning);
    if reasoning != "" {
      ShowThinking(sse, reasoning);
    }
    assert extra[..0] == [];
    for i := 0 to |extra|
      invariant sse.Valid() && sse.Sent() == old(sse.Sent())
      invariant Content(sse.trace) == shown + Label(Thinking, reasoning + Join(extra[..i]))
    {
      OneThoughtMore(shown, reasoning, extra, i);
      if extra[i] != "" {
        ShowThinking(sse, extra[i]);
      }
    }
    assert extra[..|extra|] == extra;
  }

  lemma NoThinking(shown: seq<Labelled>, reasoning: string)
    ensures shown + Label(Thinking, "") == shown && reasoning + Join([]) == reasoning
  {
  }

  lemma OneThoughtMore(shown: seq<Labelled>, reasoning: string, extra: seq<string>, i: nat)
    requires i < |extra|
    ensures var before, after := reasoning + Join(extra[..i]), reasoning + Join(extra[..i + 1]);
            && (shown + Label(Thinking, before)) + Label(Thinking, extra[i]) == shown + Label(Thinking, after)
            && (extra[i] == "" ==> after == before)
  {
    assert extra[..i + 1] == extra[..i] + [extra[i]];
    JoinAppend(extra[..i], extra[i]);
    assert reasoning + Join(extra[..i + 1]) == (reasoning + Join(extra[..i])) + extra[i];
  }

  /** One piece of the split content: thinking is shown, text goes through the tool parser first. */
  method ShowPart(sse: SSEBuilder, heuristic: H.HeuristicToolParser, codec: Codec, part: ContentChunk)
    requires sse.Valid() && part.content != ""
    modifies sse`trace, sse`nextIndex, sse`thinkingIndex, sse`textIndex, sse`thinkingStarted, sse`textStarted, heuristic
    ensures sse.Valid()
    ensures var (q, labels, tools) := One(old(heuristic.Value()), part);
            && heuristic.Value() == q
            && Content(sse.trace) == old(Content(sse.trace)) + labels
            && sse.Sent() == old(sse.Sent()).(recovered := old(sse.Sent()).recovered + CallMarks(codec, PlacedAt(tools, |Content(sse.trace)|)))
            && (sse.textIndex == -1 <==> old(sse.textIndex) == -1 && TextOnly(labels) == [])
  {
    hide AcceptAll, Content, Deltas, DistinctBlocks, SentOf, OpenTools, ListsKeys, H.Fed, TextOnly, Label, CallMarks, PlacedAt;
    OnePart(codec, heuristic.Value(), part, Content(sse.trace), sse.Sent().recovered);
    if part.kind == Thinking {
      ShowThinking(sse, part.content);
      return;
    }
    var out := heuristic.Feed(part.content);
    if out.text != "" {
      ShowText(sse, out.text);
    }
    ShowToolUses(sse, codec, out.tools);
  }

  lemma OnePart(codec: Codec, p: H.Parser, part: ContentChunk, shown: seq<Labelled>, recovered: seq<Mark>)
    requires part.content != ""
    ensures part.kind == Thinking ==> One(p, part) == (p, Label(Thinking, part.content), []) && TextOnly(Label(Thinking, part.content)) == []
    ensures part.kind == Text ==>
              var (q, out) := H.Fed(p, part.content);
              && One(p, part) == (q, Label(Text, out.text), out.tools)
              && (TextOnly(Label(Text, out.text)) == [] <==> out.text == "")
    ensures (forall n: nat :: CallMarks(codec, PlacedAt([], n)) == []) && recovered + [] == recovered && shown + Label(Text, "") == shown
  {
    hide H.Fed, TextOnly;
    OneLabel(Thinking, part.content);
    OneLabel(Text, H.Fed(p, part.content).1.text);
    OneLabel(Text, "");
    assert shown + [] == shown;
    hide Label;
  }

  lemma OneLabel(kind: ContentType, s: string)
    ensures [] + Label(kind, s) == Label(kind, s)
    ensures TextOnly(Label(kind, s)) == [] <==> kind == Thinking || s == ""
    ensures s == "" ==> Label(kind, s) == []
  {
    TextOnlyLabel(kind, s);
  }

  method ShowToolUses(sse: SSEBuilder, codec: Codec, tools: seq<H.ToolUse>)
    requires sse.Valid()
    modifies sse`trace, sse`nextIndex, sse`thinkingStarted, sse`textStarted
    ensures sse.Valid() && Content(sse.trace) == old(Content(sse.trace))
    ensures sse.Sent() == old(sse.Sent()).(recovered := old(sse.Sent()).recovered + CallMarks(codec, PlacedAt(tools, |Content(sse.trace)|)))
  {
    hide AcceptAll, Content, Deltas, DistinctBlocks, SentOf, OpenTools, ListsKeys, CallMarks;
    ghost var after := |Content(sse.trace)|;
    NoCalls(codec, tools, sse.Sent().recovered, after);
    for i := 0 to |tools|
      invariant sse.Valid() && Content(sse.trace) == old(Content(sse.trace))
      invariant sse.Sent() == old(sse.Sent()).(recovered := old(sse.Sent()).recovered + CallMarks(codec, PlacedAt(tools[..i], after)))
    {
      OneCallMore(codec, tools, i, old(sse.Sent()).recovered, after);
      ShowToolUse(sse, codec, tools[i]);
    }
    assert tools[..|tools|] == tools;
  }

  lemma NoCalls(codec: Codec, tools: seq<H.ToolUse>, recovered: seq<Mark>, after: nat)
    ensures recovered + CallMarks(codec, PlacedAt(tools[..0], after)) == recovered
  {
  }

  lemma OneCallMore(codec: Codec, tools: seq<H.ToolUse>, i: nat, recovered: seq<Mark>, after: nat)
    requires i < |tools|
    ensures (recovered + CallMarks(codec, PlacedAt(tools[..i], after))) + CallMarks(codec, PlacedAt([tools[i]], after))
            == recovered + CallMarks(codec, PlacedAt(tools[..i + 1], after))
  {
    CallMarksConcat(codec, PlacedAt(tools[..i], after), PlacedAt([tools[i]], after));
    assert PlacedAt(tools[..i + 1], after) == PlacedAt(tools[..i], after) + PlacedAt([tools[i]], after);
  }

  /** All items have been shown, and the tool parser has seen their text. */
  ghost predicate Followed(codec: Codec, items: seq<ContentChunk>, shown: seq<Labelled>, recovered: seq<Mark>, textIndex: int, p: H.Parser) {
    var s := Shows(items);
    && p == s.parser
    && shown == s.labels
    && recovered == CallMarks(codec, s.tools)
    && (textIndex == -1 <==> TextOnly(s.labels) == [])
  }

  lemma FollowedOnce(codec: Codec, items: seq<ContentChunk>, part: ContentChunk, shown: seq<Labelled>, recovered: seq<Mark>,
                     textIndex: int, p: H.Parser, textIndex': int)
    requires Followed(codec, items, shown, recovered, textIndex, p)
    requires textIndex' == -1 <==> textIndex == -1 && TextOnly(One(p, part).1) == []
    ensures var (q, labels, tools) := One(p, part);
            Followed(codec, items + [part], shown + labels, recovered + CallMarks(codec, PlacedAt(tools, |shown + labels|)), textIndex', q)
  {
    hide One, TextOnly, Label, CallMarks, Shows, PlacedAt;
    var s := Shows(items);
    var (q, labels, tools) := One(p, part);
    ShowsNext(items, part);
    TextOnlyConcat(s.labels, labels);
    CallMarksConcat(codec, s.tools, PlacedAt(tools, |s.labels + labels|));
  }

  /** Reasoning is one more item. */
  lemma FollowedThought(codec: Codec, items: seq<ContentChunk>, reasoning: string, shown: seq<Labelled>, recovered: seq<Mark>,
                        textIndex: int, p: H.Parser)
    requires Followed(codec, items, shown, recovered, textIndex, p)
    ensures Followed(codec, items + Thought(reasoning), shown + Label(Thinking, reasoning), recovered, textIndex, p)
  {
    hide TextOnly, Label, CallMarks, Shows, One, Followed, PlacedAt;
    NoThought(codec, items, shown, recovered);
    if reasoning != "" {
      ThoughtShown(codec, p, reasoning);
      FollowedOnce(codec, items, ContentChunk(Thinking, reasoning), shown, recovered, textIndex, p, textIndex);
    }
  }

  lemma NoThought(codec: Codec, items: seq<ContentChunk>, shown: seq<Labelled>, recovered: seq<Mark>)
    ensures items + Thought("") == items && shown + Label(Thinking, "") == shown && (forall n: nat :: recovered + CallMarks(codec, PlacedAt([], n)) == recovered)
  {
  }

  lemma ThoughtShown(codec: Codec, p: H.Parser, reasoning: string)
    ensures One(p, ContentChunk(Thinking, reasoning)) == (p, Label(Thinking, reasoning), []) && TextOnly(Label(Thinking, reasoning)) == []
  {
    OneLabel(Thinking, reasoning);
  }

  /** Content goes through the splitter, and each piece of it is one more item. */
  method ShowContent(sse: SSEBuilder, think: ThinkTagParser, heuristic: H.HeuristicToolParser, codec: Codec, content: string,
                     ghost items: seq<ContentChunk>)
    requires sse.Valid() && think.Valid()
    requires Followed(codec, items, Content(sse.trace), sse.Sent().recovered, sse.textIndex, heuristic.Value())
    modifies sse`trace, sse`nextIndex, sse`thinkingIndex, sse`textIndex, sse`thinkingStarted, sse`textStarted, think, heuristic
    ensures sse.Valid() && think.Valid() && sse.Sent() == old(sse.Sent()).(recovered := sse.Sent().recovered)
    ensures var (pieces, splitter) := Taken(old(think.Value()), content);
            && think.Value() == splitter
            && Followed(codec, items + pieces, Content(sse.trace), sse.Sent().recovered, sse.textIndex, heuristic.Value())
  {
    hide AcceptAll, Content, Deltas, DistinctBlocks, SentOf, OpenTools, ListsKeys, Continues, Labels, Partial, Held, Label, Followed, One, SplitFed;
    if content == "" {
      assert items + [] == items;
      return;
    }
    var more := think.Feed(content);
    NoParts(items, more);
    ghost var splitter := think.Value();
    for n := 0 to |more|
      invariant think.Value() == splitter && think.Valid()
      invariant sse.Valid() && sse.Sent() == old(sse.Sent()).(recovered := sse.Sent().recovered)
      invariant Followed(codec, items + more[..n], Content(sse.trace), sse.Sent().recovered, sse.textIndex, heuristic.Value())
    {
      assert more[n] in more;
      ghost var shown, recovered, textIndex, p := Content(sse.trace), sse.Sent().recovered, sse.textIndex, heuristic.Value();
      ShowPart(sse, heuristic, codec, more[n]);
      FollowedOnce(codec, items + more[..n], more[n], shown, recovered, textIndex, p, sse.textIndex);
      OnePartMore(items, more, n);
    }
    assert more[..|more|] == more;
  }

  lemma NoParts(parts: seq<ContentChunk>, more: seq<ContentChunk>)
    ensures parts + more[..0] == parts
  {
  }

  lemma OnePartMore(parts: seq<ContentChunk>, more: seq<ContentChunk>, n: nat)
    requires n < |more|
    ensures parts + more[..n + 1] == (parts + more[..n]) + [more[n]]
  {
  }

  // ---------------------------------------------------------------- the whole stream

  /** The first `handled` deltas were processed; `raised` says that the last of them raised an exception. */
  ghost predicate Handled(codec: Codec, deltas: seq<ToolDelta>, handled: nat, raised: bool) {
    && handled <= |deltas|
    && (raised ==> handled > 0 && RaisesAt(codec, deltas, handled - 1))
    && (forall j :: 0 <= j < (if raised then handled - 1 else handled) ==> !RaisesAt(codec, deltas, j))
  }

  /** The tool deltas of one chunk, which are deltas[at..at + |tools|] of the whole stream. */
  method ShowToolDeltas(sse: SSEBuilder, codec: Codec, tools: seq<ToolDelta>, ghost deltas: seq<ToolDelta>, ghost at: nat)
    returns (raised: bool, ghost handled: nat)
    requires sse.Valid() && at + |tools| <= |deltas| && tools == deltas[at..at + |tools|]
    requires Handled(codec, deltas, at, false)
    requires Called(codec, sse.toolStates, sse.Sent(), deltas[..at], true)
    modifies sse`trace, sse`nextIndex, sse`toolStates, sse`toolOrder, sse`thinkingStarted, sse`textStarted
    ensures sse.Valid() && Content(sse.trace) == old(Content(sse.trace)) && sse.Sent().recovered == old(sse.Sent().recovered)
    ensures Handled(codec, deltas, handled, raised) && (if raised then at < handled <= at + |tools| else handled == at + |tools|)
    ensures Called(codec, sse.toolStates, sse.Sent(), deltas[..handled], !raised)
  {
    hide AcceptAll, Content, Deltas, DistinctBlocks, SentOf, OpenTools, ListsKeys, Tracks, Raises, LogStep, LogAll, ShownStep, ShownNames;
    raised, handled := false, at;
    if tools == [] {
      return;
    }
    sse.CloseContentBlocks();
    for n := 0 to |tools|
      invariant sse.Valid() && sse.OpenContent().None? && Content(sse.trace) == old(Content(sse.trace))
      invariant sse.Sent().recovered == old(sse.Sent().recovered)
      invariant handled == at + n && Handled(codec, deltas, handled, false)
      invariant Called(codec, sse.toolStates, sse.Sent(), deltas[..handled], true)
    {
      LogAppend(deltas[..handled], deltas[handled]);
      ShownAppend(deltas[..handled], deltas[handled]);
      assert deltas[..handled + 1] == deltas[..handled] + [deltas[handled]];
      var ok := ProcessToolCall(sse, codec, tools[n], LogAll(deltas[..handled]));
      handled := handled + 1;
      if !ok {
        raised := true;
        return;
      }
    }
  }

  /** Native calls are accounted for, and announced under the right names. */
  ghost predicate Called(codec: Codec, tools: map<int, ToolCallState>, sent: Sent, deltas: seq<ToolDelta>, healthy: bool) {
    Tracks(codec, tools, sent.payloads, LogAll(deltas), healthy) && sent.names == ShownNames(deltas)
  }

  /** What has been read is on its way: the splitter holds what it has not settled, all else is shown. */
  ghost predicate Flowing(codec: Codec, chunks: seq<Chunk>, shown: seq<Labelled>, recovered: seq<Mark>, textIndex: int,
                          splitter: Splitter, p: H.Parser) {
    var f := Flows(chunks);
    splitter == f.splitter && Held(splitter) && Followed(codec, f.items, shown, recovered, textIndex, p)
  }

  /** The chunks read are those up to the one whose tool delta raised the exception, or all of them. */
  ghost predicate Consumed(upstream: seq<Chunk>, consumed: nat, handled: nat, raised: bool) {
    && consumed <= |upstream|
    && if raised then 0 < consumed && |AllTools(upstream[..consumed - 1])| <= handled - 1 < |AllTools(upstream[..consumed])|
       else consumed == |upstream| && handled == |AllTools(upstream)|
  }

  /** Reads the chunks until they end or processing one raises an exception. */
  method ReadStream(sse: SSEBuilder, think: ThinkTagParser, heuristic: H.HeuristicToolParser, codec: Codec, upstream: seq<Chunk>)
    returns (raised: bool, finish: string, ghost consumed: nat, ghost handled: nat)
    requires sse.Valid() && Flowing(codec, [], Content(sse.trace), sse.Sent().recovered, sse.textIndex, think.Value(), heuristic.Value())
    requires Called(codec, sse.toolStates, sse.Sent(), [], true)
    modifies sse, think, heuristic
    ensures sse.Valid() && Consumed(upstream, consumed, handled, raised)
    ensures Flowing(codec, upstream[..consumed], Content(sse.trace), sse.Sent().recovered, sse.textIndex, think.Value(), heuristic.Value())
    ensures Handled(codec, AllTools(upstream), handled, raised)
    ensures Called(codec, sse.toolStates, sse.Sent(), AllTools(upstream)[..handled], !raised)
    ensures finish == LastFinish(upstream[..consumed])
  {
    hide AcceptAll, Content, Deltas, DistinctBlocks, SentOf, OpenTools, ListsKeys, Called, Raises, AllTools, LastFinish, Handled, Flows, Followed, Held, SplitFed, Label, Join;
    ghost var deltas := AllTools(upstream);
    raised, finish, consumed, handled := false, "", 0, 0;
    StartReading(codec, upstream);
    for n := 0 to |upstream|
      invariant consumed == n && handled == |AllTools(upstream[..n])| <= |deltas|
      invariant sse.Valid() && finish == LastFinish(upstream[..n])
      invariant Flowing(codec, upstream[..n], Content(sse.trace), sse.Sent().recovered, sse.textIndex, think.Value(), heuristic.Value())
      invariant Handled(codec, deltas, handled, false)
      invariant Called(codec, sse.toolStates, sse.Sent(), deltas[..handled], true)
    {
      ChunksAppend(upstream, n);
      FlowsNext(upstream, n);
      AllToolsPrefix(upstream, n + 1);
      consumed := n + 1;
      match upstream[n]
      case Empty =>
        assert AllTools(upstream[..n]) + [] == AllTools(upstream[..n]);
      case Delta(reason, reasoning, extra, content, tools) =>
        if reason != "" {
          finish := reason;
        }
        ghost var sent := sse.Sent();
        ShowDelta(sse, think, heuristic, codec, reasoning, extra, content, Flows(upstream[..n]).items);
        SameCalls(codec, sse.toolStates, sent, sse.Sent(), deltas[..handled]);
        assert tools == deltas[handled..handled + |tools|];
        raised, handled := ShowToolDeltas(sse, codec, tools, deltas, handled);
        if raised {
          return;
        }
    }
    assert upstream[..|upstream|] == upstream;
  }

  /** What one delta shows: its reasoning, then its content. */
  method ShowDelta(sse: SSEBuilder, think: ThinkTagParser, heuristic: H.HeuristicToolParser, codec: Codec,
                   reasoning: string, extra: seq<string>, content: string, ghost items: seq<ContentChunk>)
    requires sse.Valid() && think.Valid()
    requires Followed(codec, items, Content(sse.trace), sse.Sent().recovered, sse.textIndex, heuristic.Value())
    modifies sse`trace, sse`nextIndex, sse`thinkingIndex, sse`textIndex, sse`thinkingStarted, sse`textStarted, think, heuristic
    ensures sse.Valid() && think.Valid() && sse.Sent() == old(sse.Sent()).(recovered := sse.Sent().recovered)
    ensures var (pieces, splitter) := Taken(old(think.Value()), content);
            && think.Value() == splitter
            && Followed(codec, items + Thought(reasoning + Join(extra)) + pieces, Content(sse.trace), sse.Sent().recovered, sse.textIndex, heuristic.Value())
  {
    FollowedThought(codec, items, reasoning + Join(extra), Content(sse.trace), sse.Sent().recovered, sse.textIndex, heuristic.Value());
    hide AcceptAll, Content, Deltas, DistinctBlocks, SentOf, OpenTools, ListsKeys, Followed, Held, Taken, Thought, Label, Join;
    ShowReasoning(sse, reasoning, extra);
    ShowContent(sse, think, heuristic, codec, content, items + Thought(reasoning + Join(extra)));
  }

  lemma StartReading(codec: Codec, upstream: seq<Chunk>)
    ensures upstream[..0] == [] && AllTools(upstream[..0]) == [] && LastFinish(upstream[..0]) == ""
    ensures AllTools(upstream)[..0] == [] && Handled(codec, AllTools(upstream), 0, false)
  {
  }

  lemma SameCalls(codec: Codec, tools: map<int, ToolCallState>, before: Sent, after: Sent, deltas: seq<ToolDelta>)
    requires Called(codec, tools, before, deltas, true) && after == before.(recovered := after.recovered)
    ensures Called(codec, tools, after, deltas, true)
  {
  }

  method ShowError(sse: SSEBuilder, message: string)
    requires sse.Valid()
    modifies sse`trace, sse`nextIndex, sse`thinkingStarted, sse`textStarted
    ensures sse.Valid() && sse.Sent() == old(sse.Sent())
    ensures Content(sse.trace) == old(Content(sse.trace)) + Label(Text, message)
  {
    sse.CloseContentBlocks();
    sse.EmitError(message);
  }

  /** Shows the text the tag splitter still holds. */
  method ShowHeldText(sse: SSEBuilder, think: ThinkTagParser)
    requires sse.Valid() && think.Valid()
    modifies sse`trace, sse`nextIndex, sse`thinkingIndex, sse`textIndex, sse`thinkingStarted, sse`textStarted, think
    ensures sse.Valid() && sse.Sent() == old(sse.Sent())
    ensures var held := Label(Mode(old(think.inThinkTag)), old(think.buffer));
            && Content(sse.trace) == old(Content(sse.trace)) + held
            && (sse.textIndex == -1 <==> old(sse.textIndex) == -1 && TextOnly(held) == [])
  {
    hide AcceptAll, Content, Deltas, DistinctBlocks, SentOf, OpenTools, ListsKeys, Parse, TextOnly;
    var remaining := think.Flush();
    if remaining.Some? {
      TextOnlyLabel(remaining.value.kind, remaining.value.content);
      assert |Label(remaining.value.kind, remaining.value.content)| > 0;
      if remaining.value.kind == Thinking {
        ShowThinking(sse, remaining.value.content);
      } else {
        ShowText(sse, remaining.value.content);
      }
    } else {
      assert Content(sse.trace) + [] == Content(sse.trace);
      assert TextOnly([]) == [] by { TextOnlyLabel(Text, ""); }
    }
  }

  /** Sends the arguments still held for Task calls. Afterwards every call is delivered. */
  method SendHeldArguments(sse: SSEBuilder, codec: Codec, ghost log: ToolLog, ghost healthy: bool)
    requires sse.Valid() && Tracks(codec, sse.toolStates, sse.Payloads(), log, healthy)
    modifies sse`trace, sse`toolStates
    ensures sse.Valid() && Content(sse.trace) == old(Content(sse.trace)) && sse.Sent() == old(sse.Sent()).(payloads := sse.Payloads())
    ensures sse.toolStates.Keys == old(sse.toolStates.Keys)
    ensures AllDelivered(codec, log, sse.toolStates, sse.Payloads())
  {
    hide SSEBuilder.Valid, AcceptAll, Content, Deltas, DistinctBlocks, SentOf, OpenTools, ListsKeys, Accounts, FlushOutput, Delivered, Listed, Sent, Tracks;
    ghost var tools, payloads := sse.toolStates, sse.Payloads();
    var results := sse.FlushTaskArgBuffers(codec);
    ListedFacts(codec, tools, results);
    SentNothing(payloads, results);
    for n := 0 to |results|
      invariant sse.Valid() && Content(sse.trace) == old(Content(sse.trace)) && sse.Sent() == old(sse.Sent()).(payloads := sse.Payloads())
      invariant sse.toolStates.Keys == tools.Keys && forall k :: k in tools ==> sse.toolStates[k] == Flushed(tools[k])
      invariant Sent(payloads, results, n, sse.Payloads())
    {
      var (k, out) := results[n];
      assert k in tools && Pending(tools[k]);
      TracksFacts(codec, tools, payloads, log, healthy, k);
      AccountsFlush(codec, tools[k], log[k], if k in payloads then payloads[k] else [], healthy);
      SentNext(payloads, results, n, sse.Payloads());
      sse.EmitToolDelta(k, out);
    }
    FlushDelivers(codec, log, tools, payloads, results, sse.toolStates, sse.Payloads(), healthy);
  }

  /** The first n results have been sent, each on the block of its own call. */
  ghost predicate Sent(payloads: map<int, seq<string>>, results: seq<(int, string)>, n: nat, now: map<int, seq<string>>)
    requires n <= |results|
  {
    && now.Keys == payloads.Keys
    && (forall i :: 0 <= i < n ==> results[i].0 in payloads && now[results[i].0] == payloads[results[i].0] + [results[i].1])
    && (forall k :: k in payloads && (forall i :: 0 <= i < n ==> results[i].0 != k) ==> now[k] == payloads[k])
  }

  lemma SentNothing(payloads: map<int, seq<string>>, results: seq<(int, string)>)
    ensures Sent(payloads, results, 0, payloads)
  {
  }

  lemma SentNext(payloads: map<int, seq<string>>, results: seq<(int, string)>, n: nat, now: map<int, seq<string>>)
    requires n < |results| && Sent(payloads, results, n, now) && results[n].0 in payloads
    requires forall i, j :: 0 <= i < j < |results| ==> results[i].0 != results[j].0
    ensures results[n].0 in now && Sent(payloads, results, n + 1, now[results[n].0 := now[results[n].0] + [results[n].1]])
  {
    var (c, out) := results[n];
    var now' := now[c := now[c] + [out]];
    assert now[c] == payloads[c];
    forall i | 0 <= i < n + 1
      ensures results[i].0 in payloads && now'[results[i].0] == payloads[results[i].0] + [results[i].1]
    {
    }
    forall k | k in payloads && forall i :: 0 <= i < n + 1 ==> results[i].0 != k
      ensures now'[k] == payloads[k]
    {
      assert results[n].0 != k;
    }
  }

  /** Every started call is delivered on its own block; the others never had arguments. */
  ghost predicate AllDelivered(codec: Codec, log: ToolLog, tools: map<int, ToolCallState>, payloads: map<int, seq<string>>) {
    && tools.Keys == log.Keys
    && (forall k :: k in payloads <==> k in tools && tools[k].started)
    && forall k :: k in tools ==>
         if k in payloads then Delivered(codec, log[k].frags, payloads[k]) else log[k].frags == []
  }

  /** Every call gets the arguments its own deltas brought, as its name demands. */
  ghost predicate SentByName(codec: Codec, deltas: seq<ToolDelta>, payloads: map<int, seq<string>>) {
    && (forall k :: ArgsFor(deltas, k) != [] ==> k in payloads)
    && (forall k, whole :: k in payloads && Within(NamesFor(deltas, k), whole) ==> ArgsSent(codec, deltas, k, whole, payloads[k]))
  }

  lemma DeliveredMeans(codec: Codec, deltas: seq<ToolDelta>, tools: map<int, ToolCallState>, payloads: map<int, seq<string>>)
    requires AllDelivered(codec, LogAll(deltas), tools, payloads)
    ensures SentByName(codec, deltas, payloads)
  {
    hide Delivered, LogAll, ArgsSent, Within, ArgsFor, NamesFor;
    forall k | ArgsFor(deltas, k) != []
      ensures k in payloads
    {
      LogHolds(deltas, k);
    }
    forall k, whole | k in payloads && Within(NamesFor(deltas, k), whole)
      ensures ArgsSent(codec, deltas, k, whole, payloads[k])
    {
      DeliveredByName(codec, deltas, k, whole, payloads[k]);
    }
  }

  lemma ListedFacts(codec: Codec, tools: map<int, ToolCallState>, results: seq<(int, string)>)
    requires Listed(codec, tools, tools.Keys, results)
    ensures forall i :: 0 <= i < |results| ==> results[i].0 in tools && Pending(tools[results[i].0])
    ensures forall i, j :: 0 <= i < j < |results| ==> results[i].0 != results[j].0
  {
  }

  lemma FlushDelivers(codec: Codec, log: ToolLog, tools: map<int, ToolCallState>, payloads: map<int, seq<string>>,
                      results: seq<(int, string)>, tools': map<int, ToolCallState>, payloads': map<int, seq<string>>, healthy: bool)
    requires Tracks(codec, tools, payloads, log, healthy) && Listed(codec, tools, tools.Keys, results)
    requires tools'.Keys == tools.Keys && forall k :: k in tools ==> tools'[k] == Flushed(tools[k])
    requires Sent(payloads, results, |results|, payloads')
    ensures AllDelivered(codec, log, tools', payloads')
  {
    hide Accounts, Delivered;
    forall k | k in tools'
      ensures if k in payloads' then Delivered(codec, log[k].frags, payloads'[k]) else log[k].frags == []
    {
      var sent := if k in payloads then payloads[k] else [];
      assert Accounts(codec, tools[k], log[k], sent, healthy);
      AccountsFlush(codec, tools[k], log[k], sent, healthy);
      UnstartedIsEmpty(codec, tools[k], log[k], sent, healthy);
      if Pending(tools[k]) {
        var i :| 0 <= i < |results| && results[i].0 == k;
        assert results[i].1 == "{}";
      }
    }
  }

  lemma UnstartedIsEmpty(codec: Codec, st: ToolCallState, e: ToolEntry, sent: seq<string>, healthy: bool)
    requires Accounts(codec, st, e, sent, healthy)
    ensures !st.started ==> e.frags == []
    ensures st.taskArgsEmitted ==> st.taskArgBuffer == ""
  {
  }

  /** The closing phase adds exactly what `Translated` says. */
  lemma TranslatedAtEnd(codec: Codec, f: Flow, shown: seq<Labelled>, body: seq<Event>, native: set<int>, error: Option<string>,
                        noText: bool, noTools: bool)
    requires shown == Shows(f.items).labels
    requires noText <==> TextOnly(shown) == [] && TextOnly(HeldLabels(f)) == []
    requires Content(body) == (shown + (if error.Some? then Label(Text, error.value) else [])) + HeldLabels(f)
                              + (if error.None? && noText && noTools then Label(Text, " ") else [])
    requires Recovered(body, native) == CallMarks(codec, Shows(f.items).tools)
               + CallMarks(codec, PlacedAt(H.Flushed(Shows(f.items).parser).1,
                                           |(shown + (if error.Some? then Label(Text, error.value) else [])) + HeldLabels(f)|))
    ensures Translated(codec, f, body, native, error, noTools)
  {
    hide TextOnly, Content, Shows, Label, CallMarks, H.Flushed, Recovered, HeldLabels, PlacedAt;
    CallMarksConcat(codec, Shows(f.items).tools,
                    PlacedAt(H.Flushed(Shows(f.items).parser).1, |(shown + (if error.Some? then Label(Text, error.value) else [])) + HeldLabels(f)|));
  }

  /** After the last chunk or the exception: report the error, hand out what is held, close everything. */
  method FinishStream(sse: SSEBuilder, think: ThinkTagParser, heuristic: H.HeuristicToolParser, codec: Codec, error: Option<string>,
                      ghost chunks: seq<Chunk>, ghost deltas: seq<ToolDelta>, ghost healthy: bool)
    requires sse.Valid()
    requires Flowing(codec, chunks, Content(sse.trace), sse.Sent().recovered, sse.textIndex, think.Value(), heuristic.Value())
    requires Called(codec, sse.toolStates, sse.Sent(), deltas, healthy)
    modifies sse, think, heuristic
    ensures AcceptAll(sse.trace) == Blocks(sse.nextIndex, None, {})
    ensures AllDelivered(codec, LogAll(deltas), sse.toolStates, sse.Payloads()) && DistinctBlocks(sse.toolStates, sse.nextIndex)
    ensures sse.Sent().names == ShownNames(deltas)
    ensures Translated(codec, Flows(chunks), sse.trace, OpenTools(sse.toolStates), error, sse.toolStates == map[])
  {
    hide AcceptAll, Content, Deltas, OpenTools, ListsKeys, Parse, TextOnly, Translated, Tracks, AllDelivered, DistinctBlocks, SentOf, Shows, Flows, Label, CallMarks, PlacedAt, H.Flushed, Partial, ShownNames, LogAll;
    ghost var shown := Content(sse.trace);
    if error.Some? {
      ShowError(sse, error.value);
    }
    ShowHeldText(sse, think);
    var late := heuristic.Flush();
    ShowToolUses(sse, codec, late);
    ghost var noText, soFar := sse.textIndex == -1, Content(sse.trace);
    if error.None? && sse.textIndex == -1 && sse.toolStates == map[] {
      ShowText(sse, " ");
    }
    ghost var noTools := sse.toolStates == map[];
    SendHeldArguments(sse, codec, LogAll(deltas), healthy);
    assert noTools <==> sse.toolStates == map[] by {
      assert noTools <==> old(sse.toolStates.Keys) == {};
    }
    sse.CloseAllBlocks();
    NothingToAdd(shown, soFar);
    SentMeans(sse.trace, sse.toolStates);
    TranslatedAtEnd(codec, Flows(chunks), shown, sse.trace, OpenTools(sse.toolStates), error, noText, noTools);
  }

  lemma SentMeans(trace: seq<Event>, tools: map<int, ToolCallState>)
    ensures SentOf(trace, tools).recovered == Recovered(trace, OpenTools(tools))
    ensures SentOf(trace, tools).payloads == PayloadsOf(trace, tools) && SentOf(trace, tools).names == NamesOf(trace, tools)
  {
  }

  lemma NothingToAdd(read: seq<Labelled>, shown: seq<Labelled>)
    ensures read + [] == read && shown + [] == shown
  {
  }

  /** The response to one request. `failure` is an exception of the upstream after its last chunk;
      `raised` tells that processing a tool delta raised one before that. */
  method StreamResponse(codec: Codec, upstream: seq<Chunk>, failure: Option<string>, processingError: string)
    returns (message: seq<Event>, tools: map<int, ToolCallState>, raised: bool, ghost consumed: nat, ghost handled: nat)
    // The trace is one complete message, whatever the chunks are and wherever the stream breaks.
    ensures CompleteMessage(message)
    ensures Handled(codec, AllTools(upstream), handled, raised) && Consumed(upstream, consumed, handled, raised)
    ensures StoppedFor(message[|message| - 2], LastFinish(upstream[..consumed]))
    // Native tool calls: fragments in order, one foreground payload for a Task call, no shared block.
    ensures AllDelivered(codec, LogAll(AllTools(upstream)[..handled]), tools, PayloadsOf(message[1..|message| - 2], tools))
    ensures SentByName(codec, AllTools(upstream)[..handled], PayloadsOf(message[1..|message| - 2], tools))
    ensures NamesOf(message[1..|message| - 2], tools) == ShownNames(AllTools(upstream)[..handled])
    ensures exists blocks :: DistinctBlocks(tools, blocks)
    // Content and reasoning: the items of the chunks read, one after the other, text through the tool parser.
    ensures Translated(codec, Flows(upstream[..consumed]), message[1..|message| - 2], OpenTools(tools),
                       if raised then Some(processingError) else failure, tools == map[])
    // Each call recovered from the text is told of by its name and all its parameters, a Task in the foreground.
    ensures ToldInFull(codec, CallsFound(Flows(upstream[..consumed]), if raised then Some(processingError) else failure),
                       Recovered(message[1..|message| - 2], OpenTools(tools)))
    // For content with no bullet and no control token that is the one-shot parse itself.
    ensures Clean(Contents(upstream[..consumed])) ==>
              ContentShown(upstream[..consumed], message[1..|message| - 2], OpenTools(tools),
                           if raised then Some(processingError) else failure, tools == map[])
  {
    hide AcceptAll, Content, Deltas, Flowing, Flows, ToldInFull, CallsFound, SentByName, Recovered, ContentShown, Translated, Called, AllDelivered, RaisesAt, LogAll, AllTools, Contents, LastFinish, Clean, CompleteBody, DistinctBlocks, SentOf, PayloadsOf, NamesOf, OpenTools, ShownNames;
    var sse := new SSEBuilder();
    var think := new ThinkTagParser();
    var heuristic := new H.HeuristicToolParser();
    StartOfResponse(codec, sse.trace, sse.toolStates);
    var finish;
    raised, finish, consumed, handled := ReadStream(sse, think, heuristic, codec, upstream);
    var error := if raised then Some(processingError) else failure;
    FinishStream(sse, think, heuristic, codec, error, upstream[..consumed], AllTools(upstream)[..handled], !raised);
    tools := sse.toolStates;
    SentMeans(sse.trace, tools);
    message := [MessageStart] + sse.trace + [MessageDelta(MapStopReason(finish)), MessageStop];
    assert message[1..|message| - 2] == sse.trace;
    AcceptedIsComplete(sse.trace);
    DeliveredMeans(codec, AllTools(upstream)[..handled], tools, PayloadsOf(sse.trace, tools));
    TranslatedTells(codec, Flows(upstream[..consumed]), sse.trace, OpenTools(tools), error, tools == map[]);
    if Clean(Contents(upstream[..consumed])) {
      CleanIsShown(codec, upstream[..consumed], sse.trace, OpenTools(tools), error, tools == map[]);
    }
  }

  lemma TranslatedTells(codec: Codec, f: Flow, body: seq<Event>, native: set<int>, error: Option<string>, noTools: bool)
    requires Translated(codec, f, body, native, error, noTools)
    ensures ToldInFull(codec, CallsFound(f, error), Recovered(body, native))
  {
    hide TextOnly, Content, Shows, Label, CallMarks, Recovered, HeldLabels, CallsFound;
    MarksTell(codec, CallsFound(f, error));
  }

  lemma StartOfResponse(codec: Codec, trace: seq<Event>, tools: map<int, ToolCallState>)
    requires trace == [] && tools == map[]
    ensures Flowing(codec, [], Content(trace), SentOf(trace, tools).recovered, -1, UNSPLIT, H.FRESH)
    ensures Called(codec, tools, SentOf(trace, tools), [], true)
  {
  }
}
