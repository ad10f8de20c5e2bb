/** Allocates block indices and tracks which text, thinking and tool blocks are open. */
module SseBuilder {
  import opened Strings
  import opened Wrappers
  import opened ThinkParser
  import opened SseTrace
  import opened ToolCalls

  datatype Buffered = Waiting | Complete(args: Json) | NotAnObject

  function OpenTools(tools: map<int, ToolCallState>): set<int> {
    set k | k in tools && tools[k].started :: tools[k].blockIndex
  }

  /** Started calls own distinct blocks below `next`. */
  ghost predicate DistinctBlocks(tools: map<int, ToolCallState>, next: int) {
    && (forall k :: k in tools ==> if tools[k].started then 0 <= tools[k].blockIndex < next else tools[k].blockIndex == -1)
    && (forall j, k :: j in tools && k in tools && j != k && tools[j].started && tools[k].started
                       ==> tools[j].blockIndex != tools[k].blockIndex)
  }

  /** Each key is listed once. */
  ghost predicate ListsKeys(order: seq<int>, tools: map<int, ToolCallState>) {
    && (forall i :: 0 <= i < |order| ==> order[i] in tools)
    && (forall k :: k in tools ==> k in order)
    && (forall i, j :: 0 <= i < j < |order| ==> order[i] != order[j])
  }

  /** What the client has been sent for tool calls: the payloads and the announced name of every
      started native call, and the calls sent as a whole. */
  datatype Sent = Sent(payloads: map<int, seq<string>>, names: map<int, string>, recovered: seq<Mark>)

  function PayloadsOf(trace: seq<Event>, tools: map<int, ToolCallState>): map<int, seq<string>> {
    map k | k in tools && tools[k].started :: Deltas(trace, tools[k].blockIndex)
  }

  function NamesOf(trace: seq<Event>, tools: map<int, ToolCallState>): map<int, string> {
    map k | k in tools && tools[k].started :: StartName(trace, tools[k].blockIndex)
  }

  function SentOf(trace: seq<Event>, tools: map<int, ToolCallState>): Sent {
    Sent(PayloadsOf(trace, tools), NamesOf(trace, tools), Recovered(trace, OpenTools(tools)))
  }

  /** An event that neither starts the block of a call nor adds to it leaves names and payloads. */
  lemma Yielded(trace: seq<Event>, e: Event, tools: map<int, ToolCallState>)
    requires forall k :: k in tools && tools[k].started && (e.BlockDelta? || e.BlockStart?) ==> e.index != tools[k].blockIndex
    ensures AcceptAll(trace + [e]) == Accept(AcceptAll(trace), e)
    ensures Content(trace + [e]) == if EventLabels(e) == [] then Content(trace) else Content(trace) + EventLabels(e)
    ensures forall i :: Deltas(trace + [e], i) ==
                        if IsArgument(e, i) then Deltas(trace, i) + [e.payload] else Deltas(trace, i)
    ensures SentOf(trace + [e], tools) ==
            if MarksOf(e, OpenTools(tools), |Content(trace)|) == [] then SentOf(trace, tools)
            else SentOf(trace, tools).(recovered := SentOf(trace, tools).recovered + MarksOf(e, OpenTools(tools), |Content(trace)|))
  {
    Append(trace, e);
    hide AcceptAll, Content, Accept, Deltas, StartName, Recovered;
    forall k | k in tools && tools[k].started
      ensures Deltas(trace + [e], tools[k].blockIndex) == Deltas(trace, tools[k].blockIndex)
      ensures StartName(trace + [e], tools[k].blockIndex) == StartName(trace, tools[k].blockIndex)
    {
    }
    assert PayloadsOf(trace + [e], tools) == PayloadsOf(trace, tools);
    assert NamesOf(trace + [e], tools) == NamesOf(trace, tools);
    assert Recovered(trace, OpenTools(tools)) + [] == Recovered(trace, OpenTools(tools));
  }

  function WholeMarks(kind: BlockKind, payload: string, after: nat): seq<Mark> {
    if kind.ToolBlock? then [CallName(kind.name, after), CallArgs(payload, after)] else []
  }

  class SSEBuilder {
    /** Everything sent to the client so far, between message_start and message_delta. */
    var trace: seq<Event>
    var nextIndex: nat
    var thinkingIndex: int
    var textIndex: int
    var thinkingStarted: bool
    var textStarted: bool
    /** The tool states, and their keys in the order they were added. */
    var toolStates: map<int, ToolCallState>
    var toolOrder: seq<int>

    function OpenContent(): Option<(int, BlockKind)>
      reads this
    {
      if thinkingStarted then Some((thinkingIndex, ThinkingBlock))
      else if textStarted then Some((textIndex, TextBlock))
      else None
    }

    /** What the client has seen is exactly what the fields say. */
    ghost predicate Valid()
      reads this
    {
      && AcceptAll(trace) == Blocks(nextIndex, OpenContent(), OpenTools(toolStates))
      && !(thinkingStarted && textStarted)
      && (OpenContent().Some? ==> 0 <= OpenContent().value.0 < nextIndex && OpenContent().value.0 !in OpenTools(toolStates))
      && (textIndex == -1 ==> !textStarted) && -1 <= textIndex
      && (forall i :: nextIndex <= i ==> Deltas(trace, i) == [])
      && DistinctBlocks(toolStates, nextIndex)
      && ListsKeys(toolOrder, toolStates)
    }

    ghost function Sent(): Sent
      reads this
    {
      SentOf(trace, toolStates)
    }

    /** The payloads sent so far for every started call. */
    ghost function Payloads(): map<int, seq<string>>
      reads this
    {
      Sent().payloads
    }

    constructor ()
      ensures Valid() && trace == [] && toolStates == map[] && textIndex == -1
    {
      trace, nextIndex, thinkingIndex, textIndex := [], 0, -1, -1;
      thinkingStarted, textStarted := false, false;
      toolStates, toolOrder := map[], [];
    }

    method Yield(e: Event)
      modifies `trace
      ensures trace == old(trace) + [e]
    {
      trace := trace + [e];
    }

    method AllocateIndex() returns (index: nat)
      modifies `nextIndex
      ensures index == old(nextIndex) && nextIndex == index + 1
    {
      index := nextIndex;
      nextIndex := nextIndex + 1;
    }

    method StartThinkingBlock()
      requires Valid() && OpenContent().None?
      modifies `trace, `nextIndex, `thinkingIndex, `thinkingStarted
      ensures Valid() && thinkingStarted && Content(trace) == old(Content(trace)) && Sent() == old(Sent())
    {
      hide AcceptAll, Content, Deltas, SentOf;
      Yielded(trace, BlockStart(nextIndex, ThinkingBlock), toolStates);
      thinkingIndex := AllocateIndex();
      thinkingStarted := true;
      Yield(BlockStart(thinkingIndex, ThinkingBlock));
    }

    method StopThinkingBlock()
      requires Valid() && thinkingStarted
      modifies `trace, `thinkingStarted
      ensures Valid() && !thinkingStarted && Content(trace) == old(Content(trace)) && Sent() == old(Sent())
    {
      hide AcceptAll, Content, Deltas, SentOf;
      Yielded(trace, BlockStop(thinkingIndex), toolStates);
      thinkingStarted := false;
      Yield(BlockStop(thinkingIndex));
    }

    method EmitThinkingDelta(content: string)
      requires Valid() && thinkingStarted
      modifies `trace
      ensures Valid() && Content(trace) == old(Content(trace)) + Label(Thinking, content) && Sent() == old(Sent())
    {
      hide AcceptAll, Content, Deltas, SentOf;
      Yielded(trace, BlockDelta(thinkingIndex, ThinkingDelta, content), toolStates);
      Yield(BlockDelta(thinkingIndex, ThinkingDelta, content));
    }

    method StartTextBlock()
      requires Valid() && OpenContent().None?
      modifies `trace, `nextIndex, `textIndex, `textStarted
      ensures Valid() && textStarted && textIndex != -1
      ensures Content(trace) == old(Content(trace)) && Sent() == old(Sent())
    {
      hide AcceptAll, Content, Deltas, SentOf;
      Yielded(trace, BlockStart(nextIndex, TextBlock), toolStates);
      textIndex := AllocateIndex();
      textStarted := true;
      Yield(BlockStart(textIndex, TextBlock));
    }

    method StopTextBlock()
      requires Valid() && textStarted
      modifies `trace, `textStarted
      ensures Valid() && !textStarted && Content(trace) == old(Content(trace)) && Sent() == old(Sent())
    {
      hide AcceptAll, Content, Deltas, SentOf;
      Yielded(trace, BlockStop(textIndex), toolStates);
      textStarted := false;
      Yield(BlockStop(textIndex));
    }

    method EmitTextDelta(content: string)
      requires Valid() && textStarted
      modifies `trace
      ensures Valid() && Content(trace) == old(Content(trace)) + Label(Text, content) && Sent() == old(Sent())
    {
      hide AcceptAll, Content, Deltas, SentOf;
      Yielded(trace, BlockDelta(textIndex, TextDelta, content), toolStates);
      Yield(BlockDelta(textIndex, TextDelta, content));
    }

    method EnsureThinkingBlock()
      requires Valid()
      modifies `trace, `nextIndex, `thinkingIndex, `thinkingStarted, `textStarted
      ensures Valid() && thinkingStarted && Content(trace) == old(Content(trace)) && Sent() == old(Sent())
    {
      if textStarted {
        StopTextBlock();
      }
      if !thinkingStarted {
        StartThinkingBlock();
      }
    }

    method EnsureTextBlock()
      requires Valid()
      modifies `trace, `nextIndex, `textIndex, `textStarted, `thinkingStarted
      ensures Valid() && textStarted && textIndex != -1
      ensures Content(trace) == old(Content(trace)) && Sent() == old(Sent())
    {
      if thinkingStarted {
        StopThinkingBlock();
      }
      if !textStarted {
        StartTextBlock();
      }
    }

    method CloseContentBlocks()
      requires Valid()
      modifies `trace, `thinkingStarted, `textStarted
      ensures Valid() && OpenContent().None? && Content(trace) == old(Content(trace)) && Sent() == old(Sent())
    {
      if thinkingStarted {
        StopThinkingBlock();
      }
      if textStarted {
        StopTextBlock();
      }
    }

    /** A text block of its own, opened and closed at once. */
    method EmitError(message: string)
      requires Valid() && OpenContent().None?
      modifies `trace, `nextIndex
      ensures Valid() && Content(trace) == old(Content(trace)) + Label(Text, message) && Sent() == old(Sent())
    {
      EmitWholeBlock(TextBlock, TextDelta, message);
    }

    /** A block of any kind with one delta, opened and closed at once. */
    method EmitWholeBlock(kind: BlockKind, delta: DeltaKind, payload: string)
      requires Valid() && OpenContent().None? && Fits(kind, delta)
      modifies `trace, `nextIndex
      ensures Valid() && OpenContent().None?
      ensures Sent() == old(Sent()).(recovered := old(Sent()).recovered + WholeMarks(kind, payload, |old(Content(trace))|))
      ensures Content(trace) == old(Content(trace)) + EventLabels(BlockDelta(0, delta, payload))
    {
      hide AcceptAll, Content, Deltas, SentOf, DistinctBlocks, OpenTools, ListsKeys;
      NextIsFree(toolStates, nextIndex);
      var index := AllocateIndex();
      Yielded(trace, BlockStart(index, kind), toolStates);
      Yield(BlockStart(index, kind));
      Yielded(trace, BlockDelta(index, delta, payload), toolStates);
      Yield(BlockDelta(index, delta, payload));
      Yielded(trace, BlockStop(index), toolStates);
      Yield(BlockStop(index));
    }

    // -------------------------------------------------------------- tool calls

    method RegisterToolName(k: int, name: string)
      requires Valid()
      modifies `toolStates, `toolOrder
      ensures Valid() && Sent() == old(Sent())
      ensures toolStates == old(toolStates)[k :=
                if k in old(toolStates) then old(toolStates)[k].(name := MergeName(old(toolStates)[k].name, name))
                else ToolCallState(-1, name, false, "", false)]
    {
      hide AcceptAll, Content, Deltas;
      if k !in toolStates {
        AddToolState(k, ToolCallState(-1, name, false, "", false));
        return;
      }
      var prev := toolStates[k].name;
      if prev == "" || prev <= name {
        SetState(k, toolStates[k].(name := name));
      } else if !(name <= prev) {
        SetState(k, toolStates[k].(name := prev + name));
      } else {
        assert toolStates == toolStates[k := toolStates[k]];
      }
    }

    method SetState(k: int, st: ToolCallState)
      requires Valid() && k in toolStates
      requires st.started == toolStates[k].started && st.blockIndex == toolStates[k].blockIndex
      modifies `toolStates
      ensures Valid() && toolStates == old(toolStates)[k := st] && Sent() == old(Sent())
    {
      hide AcceptAll, Content, Deltas;
      SameBlocks(trace, toolStates, k, st, nextIndex);
      toolStates := toolStates[k := st];
    }

    method AddToolState(k: int, st: ToolCallState)
      requires Valid() && k !in toolStates && !st.started && st.blockIndex == -1
      modifies `toolStates, `toolOrder
      ensures Valid() && toolStates == old(toolStates)[k := st] && Sent() == old(Sent())
    {
      hide AcceptAll, Content, Deltas;
      SameBlocks(trace, toolStates, k, st, nextIndex);
      toolStates := toolStates[k := st];
      toolOrder := toolOrder + [k];
    }

    method StartToolBlock(k: int, name: string)
      requires Valid() && OpenContent().None? && (k in toolStates ==> !toolStates[k].started)
      modifies `trace, `nextIndex, `toolStates, `toolOrder
      ensures Valid() && Content(trace) == old(Content(trace))
      ensures toolStates == old(toolStates)[k :=
                if k in old(toolStates) then old(toolStates)[k].(blockIndex := old(nextIndex), started := true)
                else ToolCallState(old(nextIndex), name, true, "", false)]
      ensures Sent() == old(Sent()).(payloads := old(Payloads())[k := []], names := old(Sent()).names[k := name])
    {
      hide AcceptAll, Content, Deltas, SentOf, DistinctBlocks, OpenTools, ListsKeys;
      ListedMore(toolOrder, toolStates, k);
      ghost var before, tools := trace, toolStates;
      Append(trace, BlockStart(nextIndex, ToolBlock(name)));
      var blockIndex := AllocateIndex();
      Yield(BlockStart(blockIndex, ToolBlock(name)));
      if k in toolStates {
        toolStates := toolStates[k := toolStates[k].(blockIndex := blockIndex, started := true)];
      } else {
        toolStates := toolStates[k := ToolCallState(blockIndex, name, true, "", false)];
        toolOrder := toolOrder + [k];
      }
      NewBlock(before, tools, k, toolStates[k], blockIndex, name);
    }

    method EmitToolDelta(k: int, payload: string)
      requires Valid() && k in toolStates && toolStates[k].started
      modifies `trace
      ensures Valid() && Content(trace) == old(Content(trace))
      ensures k in old(Payloads()) && Sent() == old(Sent()).(payloads := old(Payloads())[k := old(Payloads())[k] + [payload]])
    {
      hide AcceptAll, Content, Deltas;
      var e := BlockDelta(toolStates[k].blockIndex, InputJsonDelta, payload);
      MoreArguments(trace, e, toolStates, k, nextIndex);
      hide SentOf;
      Yield(e);
    }

    /** Adds a fragment to the held arguments of a Task call; complete once they are a JSON object. */
    method BufferTaskArgs(codec: Codec, k: int, args: string) returns (r: Buffered)
      requires Valid()
      modifies `toolStates
      ensures Valid() && Sent() == old(Sent())
      ensures k !in old(toolStates) || old(toolStates)[k].taskArgsEmitted ==> r == Waiting && toolStates == old(toolStates)
      ensures k in old(toolStates) && !old(toolStates)[k].taskArgsEmitted ==>
                var text := old(toolStates)[k].taskArgBuffer + args;
                match codec.loads(text)
                case Some(Dict(fields)) =>
                  r == Complete(Foreground(fields)) &&
                  toolStates == old(toolStates)[k := old(toolStates)[k].(taskArgBuffer := "", taskArgsEmitted := true)]
                case Some(_) => r == NotAnObject && toolStates == old(toolStates)[k := old(toolStates)[k].(taskArgBuffer := text)]
                case None => r == Waiting && toolStates == old(toolStates)[k := old(toolStates)[k].(taskArgBuffer := text)]
    {
      hide AcceptAll, Content, Deltas;
      if k !in toolStates || toolStates[k].taskArgsEmitted {
        return Waiting;
      }
      SetState(k, toolStates[k].(taskArgBuffer := toolStates[k].taskArgBuffer + args));
      var parsed := codec.loads(toolStates[k].taskArgBuffer);
      if parsed.None? {
        return Waiting;
      }
      if !parsed.value.Dict? {
        return NotAnObject;
      }
      var patched := Patch(parsed.value);
      SetState(k, toolStates[k].(taskArgsEmitted := true, taskArgBuffer := ""));
      return Complete(patched);
    }

    /** Empties the held arguments of one call. */
    method FlushTaskArgBuffer(codec: Codec, k: int) returns (out: Option<string>)
      requires Valid() && k in toolStates
      modifies `toolStates
      ensures Valid() && Sent() == old(Sent())
      ensures toolStates == old(toolStates)[k := Flushed(old(toolStates)[k])]
      ensures out == if Pending(old(toolStates)[k]) then Some(FlushOutput(codec, old(toolStates)[k].taskArgBuffer)) else None
    {
      hide AcceptAll, Content, Deltas;
      var st := toolStates[k];
      if st.taskArgBuffer == "" || st.taskArgsEmitted {
        assert toolStates == toolStates[k := st];
        return None;
      }
      var parsed := codec.loads(st.taskArgBuffer);
      out := Some("{}");
      if parsed.Some? && parsed.value.Dict? {
        var patched := Patch(parsed.value);
        out := Some(codec.dumps(patched));
      }
      SetState(k, st.(taskArgsEmitted := true, taskArgBuffer := ""));
    }

    /** Empties the held arguments of all Task calls, in the order of the calls. */
    method FlushTaskArgBuffers(codec: Codec) returns (results: seq<(int, string)>)
      requires Valid()
      modifies `toolStates
      ensures Valid() && Sent() == old(Sent())
      ensures toolStates.Keys == old(toolStates).Keys
      ensures forall k :: k in toolStates ==> toolStates[k] == Flushed(old(toolStates)[k])
      ensures Listed(codec, old(toolStates), old(toolStates).Keys, results)
    {
      hide AcceptAll, Content, Deltas, Flushed, Pending, Listed, DistinctBlocks, PayloadsOf, OpenTools;
      results := [];
      ghost var seen: set<int> := {};
      ListedNothing(codec, toolStates);
      for n := 0 to |toolOrder|
        invariant Valid() && Sent() == old(Sent())
        invariant toolStates.Keys == old(toolStates).Keys
        invariant forall i :: 0 <= i < |toolOrder| ==> (toolOrder[i] in seen <==> i < n)
        invariant seen <= toolStates.Keys
        invariant forall k :: k in toolStates ==>
                    toolStates[k] == if k in seen then Flushed(old(toolStates)[k]) else old(toolStates)[k]
        invariant Listed(codec, old(toolStates), seen, results)
      {
        var k := toolOrder[n];
        var out := FlushTaskArgBuffer(codec, k);
        ListedNext(codec, old(toolStates), seen, results, k, out);
        if out.Some? {
          results := results + [(k, out.value)];
        }
        seen := seen + {k};
      }
      assert seen == toolStates.Keys by {
        forall k | k in toolStates
          ensures k in seen
        {
          var i :| 0 <= i < |toolOrder| && toolOrder[i] == k;
        }
      }
    }

    /** Stops whatever is open; nothing is left open afterwards. */
    method CloseAllBlocks()
      requires Valid()
      modifies `trace, `thinkingStarted, `textStarted
      ensures AcceptAll(trace) == Blocks(nextIndex, None, {})
      ensures Content(trace) == old(Content(trace)) && Sent() == old(Sent())
    {
      hide AcceptAll, Content, Deltas, SentOf;
      CloseContentBlocks();
      OpenFromStart(toolStates, toolOrder);
      for n := 0 to |toolOrder|
        invariant AcceptAll(trace) == Blocks(nextIndex, None, OpenFrom(toolStates, toolOrder, n))
        invariant Content(trace) == old(Content(trace)) && Sent() == old(Sent())
      {
        var st := toolStates[toolOrder[n]];
        if st.started {
          Yielded(trace, BlockStop(st.blockIndex), toolStates);
          OpenFromNext(toolStates, toolOrder, n, nextIndex);
          Yield(BlockStop(st.blockIndex));
        }
      }
    }
  }

  /** A field that is missing, or anything but false, becomes false. */
  method Patch(args: Json) returns (patched: Json)
    requires args.Dict?
    ensures patched == Foreground(args.fields)
  {
    patched := args;
    if !(BACKGROUND in args.fields && args.fields[BACKGROUND] == Bool(false)) {
      patched := Dict(args.fields[BACKGROUND := Bool(false)]);
    } else {
      assert args.fields == args.fields[BACKGROUND := Bool(false)];
    }
  }

  predicate Pending(st: ToolCallState) {
    st.taskArgBuffer != "" && !st.taskArgsEmitted
  }

  function Flushed(st: ToolCallState): ToolCallState {
    if Pending(st) then st.(taskArgsEmitted := true, taskArgBuffer := "") else st
  }

  function FlushOutput(codec: Codec, buffer: string): string {
    if IsObject(codec.loads(buffer)) then codec.dumps(Foreground(codec.loads(buffer).value.fields)) else "{}"
  }

  /** The outputs flushed for the given calls: one for each that held arguments. */
  ghost predicate Listed(codec: Codec, tools: map<int, ToolCallState>, calls: set<int>, results: seq<(int, string)>) {
    && (forall i :: 0 <= i < |results| ==>
         results[i].0 in calls && results[i].0 in tools && Pending(tools[results[i].0])
         && results[i].1 == FlushOutput(codec, tools[results[i].0].taskArgBuffer))
    && (forall i, j :: 0 <= i < j < |results| ==> results[i].0 != results[j].0)
    && (forall k :: k in calls && k in tools && Pending(tools[k]) ==> exists i :: 0 <= i < |results| && results[i].0 == k)
  }

  lemma ListedNothing(codec: Codec, tools: map<int, ToolCallState>)
    ensures Listed(codec, tools, {}, [])
  {
  }

  lemma ListedNext(codec: Codec, tools: map<int, ToolCallState>, calls: set<int>, results: seq<(int, string)>, k: int, out: Option<string>)
    requires Listed(codec, tools, calls, results) && k in tools && k !in calls
    requires out == if Pending(tools[k]) then Some(FlushOutput(codec, tools[k].taskArgBuffer)) else None
    ensures Listed(codec, tools, calls + {k}, if out.Some? then results + [(k, out.value)] else results)
  {
    hide Pending, FlushOutput;
    if out.Some? {
      var results' := results + [(k, out.value)];
      assert results'[|results|].0 == k;
      forall c | c in calls && c in tools && Pending(tools[c])
        ensures exists i :: 0 <= i < |results'| && results'[i].0 == c
      {
        var i :| 0 <= i < |results| && results[i].0 == c;
        assert results'[i].0 == c;
      }
    }
  }

  /** The open blocks of the calls from position n of the order on. */
  ghost function OpenFrom(tools: map<int, ToolCallState>, order: seq<int>, n: nat): set<int>
    requires forall i :: 0 <= i < |order| ==> order[i] in tools
  {
    set i | n <= i < |order| && tools[order[i]].started :: tools[order[i]].blockIndex
  }

  lemma OpenFromStart(tools: map<int, ToolCallState>, order: seq<int>)
    requires ListsKeys(order, tools)
    ensures OpenFrom(tools, order, 0) == OpenTools(tools)
  {
    forall i | i in OpenTools(tools)
      ensures i in OpenFrom(tools, order, 0)
    {
      var k :| k in tools && tools[k].started && tools[k].blockIndex == i;
      var n :| 0 <= n < |order| && order[n] == k;
      assert tools[order[n]].started;
    }
    forall i | i in OpenFrom(tools, order, 0)
      ensures i in OpenTools(tools)
    {
      var n :| 0 <= n < |order| && tools[order[n]].started && tools[order[n]].blockIndex == i;
      InOpenTools(tools, order[n]);
    }
  }

  lemma OpenFromNext(tools: map<int, ToolCallState>, order: seq<int>, n: nat, next: int)
    requires n < |order| && (forall i :: 0 <= i < |order| ==> order[i] in tools) && tools[order[n]].started
    requires DistinctBlocks(tools, next) && forall i, j :: 0 <= i < j < |order| ==> order[i] != order[j]
    ensures tools[order[n]].blockIndex in OpenFrom(tools, order, n)
    ensures OpenFrom(tools, order, n) - {tools[order[n]].blockIndex} == OpenFrom(tools, order, n + 1)
  {
    var b := tools[order[n]].blockIndex;
    forall i | i in OpenFrom(tools, order, n + 1)
      ensures i in OpenFrom(tools, order, n) - {b}
    {
      var m :| n + 1 <= m < |order| && tools[order[m]].started && tools[order[m]].blockIndex == i;
      assert tools[order[n]].started;
    }
  }

  lemma InOpenTools(tools: map<int, ToolCallState>, k: int)
    requires k in tools && tools[k].started
    ensures tools[k].blockIndex in OpenTools(tools)
  {
  }

  /** A delta on the block of a started call. */
  lemma MoreArguments(trace: seq<Event>, e: Event, tools: map<int, ToolCallState>, k: int, next: int)
    requires DistinctBlocks(tools, next) && k in tools && tools[k].started && IsArgument(e, tools[k].blockIndex)
    ensures AcceptAll(trace + [e]) == Accept(AcceptAll(trace), e)
    ensures Content(trace + [e]) == Content(trace)
    ensures forall i :: Deltas(trace + [e], i) == if IsArgument(e, i) then Deltas(trace, i) + [e.payload] else Deltas(trace, i)
    ensures tools[k].blockIndex in OpenTools(tools)
    ensures var was := SentOf(trace, tools);
            && k in was.payloads
            && SentOf(trace + [e], tools) == was.(payloads := was.payloads[k := was.payloads[k] + [e.payload]])
  {
    hide AcceptAll, Content, Accept, Deltas, StartName, Recovered, PayloadsOf, NamesOf, OpenTools, DistinctBlocks, IsArgument;
    Append(trace, e);
    MorePayload(trace, e, tools, k, next);
    SameNames(trace, e, tools, k);
    assert Recovered(trace, OpenTools(tools)) + [] == Recovered(trace, OpenTools(tools));
  }

  lemma NextIsFree(tools: map<int, ToolCallState>, next: int)
    requires DistinctBlocks(tools, next)
    ensures DistinctBlocks(tools, next + 1) && next !in OpenTools(tools)
    ensures forall k :: k in tools && tools[k].started ==> tools[k].blockIndex < next
  {
  }

  lemma ListedMore(order: seq<int>, tools: map<int, ToolCallState>, k: int)
    requires ListsKeys(order, tools)
    ensures forall st: ToolCallState {:trigger tools[k := st]} :: ListsKeys(if k in tools then order else order + [k], tools[k := st])
  {
  }

  lemma PayloadsAre(trace: seq<Event>, tools: map<int, ToolCallState>)
    ensures forall j :: j in PayloadsOf(trace, tools) <==> j in tools && tools[j].started
    ensures forall j :: j in PayloadsOf(trace, tools) ==> PayloadsOf(trace, tools)[j] == Deltas(trace, tools[j].blockIndex)
  {
    hide Deltas;
  }

  lemma OnlyItsOwn(e: Event, tools: map<int, ToolCallState>, k: int, next: int)
    requires DistinctBlocks(tools, next) && k in tools && tools[k].started && IsArgument(e, tools[k].blockIndex)
    ensures forall j :: j in tools && tools[j].started ==> (IsArgument(e, tools[j].blockIndex) <==> j == k)
    ensures tools[k].blockIndex in OpenTools(tools) && EventLabels(e) == [] && (forall n: nat :: MarksOf(e, OpenTools(tools), n) == [])
  {
    InOpenTools(tools, k);
  }

  lemma MorePayload(trace: seq<Event>, e: Event, tools: map<int, ToolCallState>, k: int, next: int)
    requires DistinctBlocks(tools, next) && k in tools && tools[k].started && IsArgument(e, tools[k].blockIndex)
    ensures var was := PayloadsOf(trace, tools);
            k in was && PayloadsOf(trace + [e], tools) == was[k := was[k] + [e.payload]]
    ensures tools[k].blockIndex in OpenTools(tools) && EventLabels(e) == [] && (forall n: nat :: MarksOf(e, OpenTools(tools), n) == [])
  {
    hide AcceptAll, Content, Accept, Deltas, StartName, Recovered, PayloadsOf, OpenTools, DistinctBlocks;
    Append(trace, e);
    OnlyItsOwn(e, tools, k, next);
    PayloadsAre(trace, tools);
    PayloadsAre(trace + [e], tools);
    var was, now := PayloadsOf(trace, tools), PayloadsOf(trace + [e], tools);
    assert k in was && forall j :: j in now <==> j in was;
    var more := was[k := was[k] + [e.payload]];
    forall j | j in now
      ensures now[j] == more[j]
    {
    }
    assert forall j :: j in now.Keys <==> j in more.Keys;
    assert now == more;
  }

  lemma SameNames(trace: seq<Event>, e: Event, tools: map<int, ToolCallState>, k: int)
    requires k in tools && IsArgument(e, tools[k].blockIndex)
    ensures NamesOf(trace + [e], tools) == NamesOf(trace, tools)
  {
    Append(trace, e);
    hide AcceptAll, Content, Accept, Deltas, StartName, Recovered;
    forall j | j in tools && tools[j].started
      ensures NamesOf(trace + [e], tools)[j] == NamesOf(trace, tools)[j]
    {
      assert !StartsCall(e, tools[j].blockIndex);
    }
    assert NamesOf(trace + [e], tools).Keys == NamesOf(trace, tools).Keys;
  }

  /** Changing what does not concern the block of a call changes no block and no payload. */
  lemma SameBlocks(trace: seq<Event>, tools: map<int, ToolCallState>, k: int, st: ToolCallState, next: int)
    requires if k in tools then st.started == tools[k].started && st.blockIndex == tools[k].blockIndex
             else !st.started && st.blockIndex == -1
    requires DistinctBlocks(tools, next)
    ensures OpenTools(tools[k := st]) == OpenTools(tools)
    ensures DistinctBlocks(tools[k := st], next)
    ensures SentOf(trace, tools[k := st]) == SentOf(trace, tools)
  {
    hide Deltas, StartName, Recovered, OpenTools, DistinctBlocks, PayloadsOf, NamesOf;
    SameOpen(tools, k, st);
    SameDistinct(tools, k, st, next);
    SameTold(trace, tools, k, st);
  }

  lemma SameOpen(tools: map<int, ToolCallState>, k: int, st: ToolCallState)
    requires if k in tools then st.started == tools[k].started && st.blockIndex == tools[k].blockIndex else !st.started
    ensures OpenTools(tools[k := st]) == OpenTools(tools)
  {
    var tools' := tools[k := st];
    forall i | i in OpenTools(tools)
      ensures i in OpenTools(tools')
    {
      var j :| j in tools && tools[j].started && tools[j].blockIndex == i;
      InOpenTools(tools', j);
    }
    forall i | i in OpenTools(tools')
      ensures i in OpenTools(tools)
    {
      var j :| j in tools' && tools'[j].started && tools'[j].blockIndex == i;
      InOpenTools(tools, j);
    }
  }

  lemma SameDistinct(tools: map<int, ToolCallState>, k: int, st: ToolCallState, next: int)
    requires if k in tools then st.started == tools[k].started && st.blockIndex == tools[k].blockIndex
             else !st.started && st.blockIndex == -1
    requires DistinctBlocks(tools, next)
    ensures DistinctBlocks(tools[k := st], next)
  {
  }

  lemma SameTold(trace: seq<Event>, tools: map<int, ToolCallState>, k: int, st: ToolCallState)
    requires if k in tools then st.started == tools[k].started && st.blockIndex == tools[k].blockIndex else !st.started
    ensures PayloadsOf(trace, tools[k := st]) == PayloadsOf(trace, tools) && NamesOf(trace, tools[k := st]) == NamesOf(trace, tools)
  {
    hide Deltas, StartName, PayloadsOf, NamesOf;
    PayloadsAre(trace, tools);
    PayloadsAre(trace, tools[k := st]);
    NamesAre(trace, tools);
    NamesAre(trace, tools[k := st]);
    var payloads, names := PayloadsOf(trace, tools[k := st]), NamesOf(trace, tools[k := st]);
    assert forall j :: j in payloads.Keys <==> j in PayloadsOf(trace, tools).Keys;
    forall j | j in payloads
      ensures payloads[j] == PayloadsOf(trace, tools)[j]
    {
    }
    assert payloads == PayloadsOf(trace, tools);
    assert forall j :: j in names.Keys <==> j in NamesOf(trace, tools).Keys;
    forall j | j in names
      ensures names[j] == NamesOf(trace, tools)[j]
    {
    }
    assert names == NamesOf(trace, tools);
  }

  lemma NamesAre(trace: seq<Event>, tools: map<int, ToolCallState>)
    ensures forall j :: j in NamesOf(trace, tools) <==> j in tools && tools[j].started
    ensures forall j :: j in NamesOf(trace, tools) ==> NamesOf(trace, tools)[j] == StartName(trace, tools[j].blockIndex)
  {
    hide StartName;
  }

  lemma NewBlock(t: seq<Event>, tools: map<int, ToolCallState>, k: int, st: ToolCallState, next: nat, name: string)
    requires DistinctBlocks(tools, next) && AcceptAll(t).Blocks? && AcceptAll(t).next == next && Deltas(t, next) == []
    requires (k in tools ==> !tools[k].started) && st.started && st.blockIndex == next
    ensures OpenTools(tools[k := st]) == OpenTools(tools) + {next}
    ensures DistinctBlocks(tools[k := st], next + 1)
    ensures var was := SentOf(t, tools);
            SentOf(t + [BlockStart(next, ToolBlock(name))], tools[k := st]) == was.(payloads := was.payloads[k := []], names := was.names[k := name])
  {
    hide AcceptAll, Deltas, StartName, Recovered, PayloadsOf, NamesOf, DistinctBlocks, OpenTools;
    Append(t, BlockStart(next, ToolBlock(name)));
    FreshBlockTellsNothing(t, OpenTools(tools), next);
    NewBlockOpens(tools, k, st, next);
    NewBlockPayloads(t, tools, k, st, next, name);
    NewBlockNames(t, tools, k, st, next, name);
    assert Recovered(t, OpenTools(tools)) + [] == Recovered(t, OpenTools(tools));
  }

  lemma NewBlockOpens(tools: map<int, ToolCallState>, k: int, st: ToolCallState, next: nat)
    requires DistinctBlocks(tools, next) && (k in tools ==> !tools[k].started) && st.started && st.blockIndex == next
    ensures OpenTools(tools[k := st]) == OpenTools(tools) + {next} && DistinctBlocks(tools[k := st], next + 1)
  {
    var tools' := tools[k := st];
    forall i | i in OpenTools(tools) + {next}
      ensures i in OpenTools(tools')
    {
      if i == next {
        InOpenTools(tools', k);
      } else {
        var j :| j in tools && tools[j].started && tools[j].blockIndex == i;
        InOpenTools(tools', j);
      }
    }
  }

  lemma NewBlockPayloads(t: seq<Event>, tools: map<int, ToolCallState>, k: int, st: ToolCallState, next: nat, name: string)
    requires DistinctBlocks(tools, next) && Deltas(t, next) == []
    requires (k in tools ==> !tools[k].started) && st.started && st.blockIndex == next
    ensures PayloadsOf(t + [BlockStart(next, ToolBlock(name))], tools[k := st]) == PayloadsOf(t, tools)[k := []]
  {
    var e, tools' := BlockStart(next, ToolBlock(name)), tools[k := st];
    Append(t, e);
    hide AcceptAll, Deltas, StartName, Recovered, Content, DistinctBlocks;
    forall j | j in tools' && tools'[j].started
      ensures PayloadsOf(t + [e], tools')[j] == PayloadsOf(t, tools)[k := []][j]
    {
    }
    assert PayloadsOf(t + [e], tools').Keys == PayloadsOf(t, tools)[k := []].Keys;
  }

  lemma NewBlockNames(t: seq<Event>, tools: map<int, ToolCallState>, k: int, st: ToolCallState, next: nat, name: string)
    requires DistinctBlocks(tools, next)
    requires (k in tools ==> !tools[k].started) && st.started && st.blockIndex == next
    ensures NamesOf(t + [BlockStart(next, ToolBlock(name))], tools[k := st]) == NamesOf(t, tools)[k := name]
  {
    var e, tools' := BlockStart(next, ToolBlock(name)), tools[k := st];
    Append(t, e);
    hide AcceptAll, Deltas, StartName, Recovered, Content;
    forall j | j in tools' && tools'[j].started
      ensures NamesOf(t + [e], tools')[j] == NamesOf(t, tools)[k := name][j]
    {
      if j != k {
        assert tools[j].blockIndex < next && !StartsCall(e, tools[j].blockIndex);
      } else {
        assert StartsCall(e, next);
      }
    }
    assert NamesOf(t + [e], tools').Keys == NamesOf(t, tools)[k := name].Keys;
  }
}
