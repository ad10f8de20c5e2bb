# Verified model of a messaging and streaming proxy

A Dafny model of the parts of the proxy that keep state over whole runs, with proofs about every run.

- **Streaming.** OpenAI-style chunks (`Upstream`) become Anthropic-style events: `ThinkParser` splits `<think>` tags
  incrementally, `HeuristicParser` recovers tool calls written as text, `Translation` says what becomes of
  content that goes through both, `ToolCalls` and `SseBuilder` keep blocks and arguments of native calls,
  `CallLogs` reads off the deltas of a stream what is due for each call, `SseTrace` says what a well-formed
  message is, and `StreamPipeline` is the driver. `MessageConverter` is the printer that the splitter undoes;
  `CanonicalCalls` says exactly when written tool calls survive chunking, `CallChunkings` gives cases,
  `RecoveredCalls` follows them from end to end, and `ParserLaws` says what becomes of other text.
- **Scheduling.** `TreeScheduler` is the queue and the hand-over between tasks of one conversation tree,
  `MessageTrees` the tree with its status index, `TreeRepositories` all trees with the map of ids, and
  `MessageLists` the list of live messages that they are measured against.
- **Limits.** `RateLimits` is the sliding window, `Retries` the requests that wait for it and retry, and
  `CompactingQueue` the message queue in which later tasks overwrite earlier ones.
- **Transcript.** `Transcript` renders under a length limit and keeps the stack of running subagents.

What a class does in place is a class here, and each of its methods is proved against functions and
predicates on values; the claims about runs are made about those.

## How the source is read

- A method of `Scheduler`, `Queue`, `SlidingWindowLimiter` or a tree is one region that no other coroutine
  interleaves with; runs are arbitrary sequences of such steps. `mark_node_error` and `add_to_tree` give up
  control between their parts, `cancel_branch` takes the descendants before it waits for the lock
  (messaging/trees/queue_manager.py:371-374), and `remove_branch` looks the tree up before it and takes the
  ids out of the map after it (messaging/trees/queue_manager.py:407-423); each is taken as one step.
- In `Retries` the turns of all other requests, and of whoever sets the block, are part of the input.
- `json.loads` and `json.dumps` are functions about which nothing is assumed. Clock readings, jitter and
  outcomes of calls are parameters; time is a real number.
- Ids are opaque and never empty; ids made up with `uuid` are not part of events.
- Upstream is any sequence of chunks followed by an optional exception; a chunk may also hold a tool delta
  that cannot be read.
- The estimate of output tokens is assumed not to raise. It is made outside the `try`, before
  `message_delta` (providers/openai_compat.py:317-321, providers/common/sse_builder.py:361-375); an exception
  of the tokenizer there, for which text or reasoning that spells one of its special tokens may be a cause, would
  end the message without its last two events.
- The strings an event carries are kept, its JSON framing (section 9.2.5 of the WHATWG HTML Living Standard
  for the stream) is not.

## What the code does that one might not expect

- **Chunking matters for written tool calls.** All calls of a text are recovered when the chunking is safe
  and, unless a value under a key that ends like a closing tag itself holds an opening tag, only then
  (`CanonicalCalls.CallsRecoveredIffSafe`). When a buffer holds a closed parameter
  of a later call, that parameter goes to the call before it and the later call is shown as text
  (`CallChunkings.OneChunkFails`, `CanonicalCalls.LaterCallSwallowed`). A parameter whose key ends like a
  closing tag is read as it stands when it arrives whole (`CanonicalCalls.WholeParameter`), but is cut in
  two when a buffer ends behind its key (`CallChunkings.KeyClosesEarly`, `CanonicalCalls.OvercutFails`).
- **Arguments of a Task that are JSON but no object raise.** The access to the parsed value stands outside
  the `try` (providers/common/sse_builder.py:94-100), so the stream takes its error path and the flush then
  sends `{}`. The branch of the flush that sends an object is never taken (`ToolCalls.AccountsFlush`).
- **A name that comes in fragments is announced by its first one**, while later fragments still decide
  whether the call is a Task (`ToolCalls.ShownIsBeginning`). A call that starts with an id but no name is
  announced with an empty name.
- **A control token that arrives in pieces may be shown.** Cut in two, it stays hidden if and only if
  text comes before it in the same piece and the cut is behind its opening characters, and not such that the
  first piece ends in them again (`ParserLaws.HeldTokenGoes`, `OtherTokenShows`); cut once more, what was held
  back is shown after all (`SecondCutShows`). The comments promise that it is never shown
  (providers/common/heuristic_tool_parser.py:7-12, 49-55).
- **A message with nothing but recovered calls also shows a blank**: only native calls count as calls when
  the blank is decided on (`RecoveredCalls.WrittenCalls`).
- **Cancelling a whole tree ends mutual exclusion** exactly when a task is before its hand-over
  (`TreeScheduler.Scheduler.CancelTree`, `CancelTreeThenEnqueue`).
- **A task cancelled before it runs, or while it hands over, leaves the tree busy for good**, as does the
  dispatch of a node that is no longer in the tree; only cancelling the whole tree helps
  (`TreeScheduler.Take`).
- **The limiter's documentation says "any interval"** (messaging/limiter.py:23). It holds for intervals that
  leave out one end (`RateLimits.AtMostLimitPerWindow`). With both ends it fails exactly when a grant lies at
  the one end and the grant `limit` places later at the other (`RateLimits.AnyIntervalPromise`), which can
  happen for every limit and window (`RateLimits.PromiseFails`).
- **Rendering never shows the last segment whole in the fallback**: that branch cannot be reached
  (`Transcript.LastAloneIsTooLong`). A status with leading newlines may lose them.
- **An ordinary tool result can close a subagent**: ids match when one extends the other
  (`Transcript.ResultClosesNone`).

## Model

| member | source | states |
|---|---|---|
| `StreamPipeline.StreamResponse` | providers/openai_compat.py:128-332 | For every sequence of chunks and an exception at any point: the events are one complete message (see `SseTrace`); everything before the first delta that cannot be processed is handled, and the chunks read are those up to the one that holds it; the stop reason is that of the last finish reason read; every native call has a block of its own, announced under the name known then, with exactly its fragments in order or, for a Task, one payload, read off the deltas of that call themselves (`CallLogs.ArgsSent`); and reasoning and content of the chunks read become exactly what `Translation.Translated` says, every recovered call told of by its name and all its parameters, a Task in the foreground, behind exactly the text and thinking shown before it, which for content free of `●` and of control tokens is the one-shot parse with the reasoning in its place, plus a single blank exactly when there is no text, no native call and no error, or the error message at one place |
| `StreamPipeline.ReadStream` | providers/openai_compat.py:165-245 | Reading stops exactly in the chunk that holds the first delta whose processing raises; until then all reasoning has been shown, the pieces handed out by the splitter have been shown or put through the tool parser, and every native call is announced and accounted for |
| `StreamPipeline.ProcessToolCall` | providers/openai_compat.py:73-107 | One delta turns an account of all calls so far into an account of the calls after it (what the calls are is given by `CallLogs.LogHolds` and the rows after it), announces a call under the right name, and raises exactly when the delta is malformed or makes held Task arguments JSON that is not an object; content and recovered calls are untouched |
| `StreamPipeline.OpenToolCall` | providers/openai_compat.py:75-97 | Name fragments are merged; a block is started once there is a name or an id, and at the latest before arguments, and announced under the name known by then |
| `StreamPipeline.SendArguments` | providers/openai_compat.py:91-107 | A fragment is sent on, or held for a Task call; the account of the call covers it either way |
| `StreamPipeline.SendHeldArguments` | providers/openai_compat.py:109-112 | After the flush every call is delivered: ordinary fragments one by one, Task fragments as one payload, nothing for a call without arguments |
| `StreamPipeline.FinishStream` | providers/openai_compat.py:247-315 | Whatever state the stream broke in, the closing phase leaves no block open, delivers all held arguments and text, and hands out the call still under way in the tool parser |
| `StreamPipeline.ShowContent` | providers/openai_compat.py:192-229 | Content in any state keeps the trace well formed; the splitter ends where the pure splitter does, and what is shown and recovered is what the pieces handed out become |
| `StreamPipeline.ShowReasoning` | providers/openai_compat.py:181-190 | Reasoning of either channel is shown as thinking, all of it and in order |
| `StreamPipeline.ShowPart` | providers/openai_compat.py:194-229 | A thinking piece is shown as it is; of a text piece exactly what the tool parser lets through is shown, and then exactly the calls it finds are sent |
| `StreamPipeline.ShowToolUse` | providers/openai_compat.py:209-229 | A recovered call is told of by its name and its arguments in a block of its own that is opened and closed at once; the arguments are `json.dumps` of an object with every parameter as a string, and for a Task run_in_background false, and no other key; nothing shown changes |
| `Translation.MarksTell` | providers/openai_compat.py:209-229 | Each call recovered, in the stream or after it, is told of by its name and by `json.dumps` of an object whose keys are its parameters, each with its value as a string; for a Task, and only for it, run_in_background is there and false |
| `Translation.CallsComeBehind` | providers/openai_compat.py:199-229 | A call found in a piece comes behind the text of that piece and all shown before |
| `Translation.CleanPassesThrough` | providers/common/heuristic_tool_parser.py:67-98 | The tool parser returns clean text unchanged, finds no call in it and keeps nothing back |
| `Translation.CleanShows` | providers/openai_compat.py:192-229 | Clean content and the reasoning between its pieces are shown as they are labelled, and no call is found |
| `Translation.CleanIsShown` | providers/openai_compat.py:192-309 | For clean content the client sees the one-shot parse, with the reasoning in between, with the error message or the single blank put in, and no call is recovered |
| `Translation.FlowIsParse` | providers/openai_compat.py:192-193 | However the content is cut: the pieces handed out and what is held are the one-shot parse of all content, and what is held is short |
| `Translation.ReasoningIsShown` | providers/openai_compat.py:181-190 | Whatever the content is: the reasoning of every chunk read is shown as thinking right behind all that the chunks before it show |
| `RecoveredCalls.WrittenCalls` | providers/openai_compat.py:192-300 | From end to end: if the text of the content is a lead followed by well-formed calls, with thinking anywhere in between, the client is told exactly of those calls and shown exactly the lead (a blank if there is none) when the chunks are cut safely; otherwise it is shown more than that and not just a blank or, only for keys that end like a closing tag, told of other calls, as long as values under such keys hold no opening tag |
| `RecoveredCalls.OneWrittenCall` | providers/openai_compat.py:192-300 | A single written call whose tag keeps to the limit and whose keys do not end like a closing tag always reaches the client, however the upstream is cut |
| `RecoveredCalls.ShowsText` | providers/openai_compat.py:194-207 | Thinking between pieces of text makes no difference to the tool parser: it sees the pieces of text one after the other |
| `SseTrace.AcceptedIsExplained` | providers/common/sse_builder.py:243-348 | An accepted event sequence has blocks numbered 0, 1, 2, …, each started once, stopped at most once, every delta strictly inside a block of its own kind, and no two text or thinking blocks open together |
| `SseTrace.AcceptedIsComplete` | providers/common/sse_builder.py:332-340 | Accepted with nothing open: every started block is stopped exactly once |
| `SseTrace.ExplainsAppend` | providers/common/sse_builder.py:60-64 | One more accepted event keeps all blocks as they were and is itself explained |
| `SseTrace.FreshBlockTellsNothing` | providers/common/sse_builder.py:60-64 | No event of an accepted sequence speaks of a block that has not been started |
| `SseBuilder.SSEBuilder.constructor` | providers/common/sse_builder.py:53-58 | Nothing sent, nothing open, no call known |
| `SseBuilder.SSEBuilder.StartTextBlock` | providers/common/sse_builder.py:263-267 | With no content block open, a text block is opened under the next index and the trace stays well formed |
| `SseBuilder.SSEBuilder.StartThinkingBlock` | providers/common/sse_builder.py:244-248 | The same for a thinking block |
| `SseBuilder.SSEBuilder.EmitTextDelta` | providers/common/sse_builder.py:269-272 | With a text block open, exactly this text is added to what is shown |
| `SseBuilder.SSEBuilder.EmitThinkingDelta` | providers/common/sse_builder.py:250-255 | With a thinking block open, exactly this thinking is added to what is shown |
| `SseBuilder.SSEBuilder.EnsureTextBlock` | providers/common/sse_builder.py:318-323 | From any valid state a text block is open afterwards and thinking is not; nothing shown changes |
| `SseBuilder.SSEBuilder.EnsureThinkingBlock` | providers/common/sse_builder.py:311-316 | From any valid state a thinking block is open afterwards and text is not; nothing shown changes |
| `SseBuilder.SSEBuilder.CloseContentBlocks` | providers/common/sse_builder.py:325-330 | Neither text nor thinking is open afterwards |
| `SseBuilder.SSEBuilder.EmitError` | providers/common/sse_builder.py:343-348 | The message is shown in a text block of its own without disturbing the remembered text index |
| `SseBuilder.SSEBuilder.RegisterToolName` | providers/common/sse_builder.py:66-82 | Fragments are appended, resent names are not repeated; blocks and payloads stay |
| `SseBuilder.SSEBuilder.StartToolBlock` | providers/common/sse_builder.py:280-295 | A call gets a block that no other call has, announced under this name, with no payload yet; the other calls keep theirs |
| `SseBuilder.SSEBuilder.EmitToolDelta` | providers/common/sse_builder.py:297-303 | The payload is appended to the block of this call and of no other |
| `SseBuilder.SSEBuilder.BufferTaskArgs` | providers/common/sse_builder.py:84-105 | The held text plus the fragment is an object (patched to the foreground and released), other JSON (the exception) or not yet JSON (held) |
| `SseBuilder.SSEBuilder.FlushTaskArgBuffers` | providers/common/sse_builder.py:107-133 | Each call with held arguments is listed exactly once and holds nothing afterwards |
| `SseBuilder.Patch` | providers/common/sse_builder.py:100-101 | Whatever the object said, it now runs in the foreground; other fields are kept |
| `SseBuilder.SSEBuilder.CloseAllBlocks` | providers/common/sse_builder.py:332-340 | Every open block is stopped once; nothing is left open |
| `SseBuilder.NewBlock` | providers/common/sse_builder.py:280-295 | Giving a call a new block keeps blocks distinct and changes no other name, payload or recovered call |
| `SseBuilder.SSEBuilder.EmitWholeBlock` | providers/openai_compat.py:213-229 | A block of any kind with one delta, opened and closed at once; of a tool block its name and its payload are told |
| `ToolCalls.DeliveredToTask` | providers/openai_compat.py:91-112 | A call named Task from its first fragment on is sent exactly one payload: `json.dumps` of the object its fragments make, with run_in_background false and all else as it was, or `{}` if they make none; a call never so named is sent every fragment unchanged |
| `ToolCalls.FirstJsonIs` | providers/common/sse_builder.py:84-105 | What counts for a Task are the first leading fragments that together are JSON |
| `CallLogs.LogHolds` | providers/openai_compat.py:73-107 | After any deltas the calls known are those that some delta names or gives an id or arguments, and each has exactly the non-empty arguments of its own deltas, in order; a delta with a negative index belongs to a new call numbered by the calls known before it |
| `CallLogs.ArgsByIndex` | providers/openai_compat.py:75-77 | Without negative indices the arguments of a call are those of the deltas with its index |
| `CallLogs.NameSettles` | providers/common/sse_builder.py:66-82 | Names that are all beginnings of one of them, resent or extended, in part or in full, add up to that one |
| `CallLogs.NameOfPieces` | providers/common/sse_builder.py:66-82 | Pieces none of which begins what came before it, or is begun by it, are put together in order |
| `CallLogs.FragNames` | providers/openai_compat.py:98-107 | A fragment arrives under a beginning of the whole name of its call, and under the whole name if that has been given in time |
| `CallLogs.DeliveredByName` | providers/openai_compat.py:91-112 | So the client gets, for a call whose name is not Task and does not begin with it, the arguments its deltas brought one by one and in order; for a Task named in time, one payload made of all of them |
| `CallLogs.RaisesByName` | providers/common/sse_builder.py:84-105 | A readable delta raises only if it completes the held arguments of a Task to JSON that is no object, nothing before having been JSON |
| `CallLogs.AnnouncedIff` | providers/openai_compat.py:79-97 | A call is announced if and only if some delta of it brings an id, arguments or a name that is not empty |
| `CallLogs.AnnouncedAs` | providers/openai_compat.py:81-97 | It is announced under the name known when the first such delta has come; with no name, under the empty one if there is an id and else as `tool_call` |
| `Upstream.ChunksConcat` | providers/openai_compat.py:165-245 | Content and tool deltas of the chunks add up in order, and the finish reason that counts is the last one given |
| `Upstream.DeltaInPlace` | providers/openai_compat.py:230-245 | Every tool delta of every chunk is among those of the stream, in its place |
| `ToolCalls.ShownIsBeginning` | providers/openai_compat.py:81-89 | The announced name is the beginning of the name the call ends up with, or the stand-in `tool_call` |
| `ToolCalls.AccountsTask` | providers/common/sse_builder.py:84-105 | A Task fragment is held until the text becomes an object, then one patched payload stands for all fragments, later ones included |
| `ToolCalls.AccountsRaw` | providers/openai_compat.py:100-107 | A fragment of another call is passed on as it is, also before or after the call is called Task |
| `ToolCalls.AccountsFlush` | providers/common/sse_builder.py:107-133 | What is still held at the end can never be an object, so `{}` is what is sent |
| `ToolCalls.AccountsBreak` | providers/common/sse_builder.py:94-101 | Arguments break exactly when the held text becomes JSON other than an object |
| `ThinkParser.ParseChunks` | providers/common/think_parser.py:44-165 | Feeding any chunking of a text and flushing labels every character as the one-shot specification labels the whole text |
| `ThinkParser.ThinkTagParser.Feed` | providers/common/think_parser.py:44-65 | From any state and for any text the loop ends; the labels handed out are those no continuation can change, what is held is nothing or a proper prefix of a tag, and the pieces are those of the pure splitter |
| `ThinkParser.ThinkTagParser.ParseOutsideThink` | providers/common/think_parser.py:67-118 | One pass outside a thought emits only settled text, drops orphan closing tags, and holds back a possible tag |
| `ThinkParser.ThinkTagParser.ParseInsideThink` | providers/common/think_parser.py:120-154 | One pass inside a thought emits only settled thinking and leaves the thought only at its closing tag |
| `ThinkParser.ThinkTagParser.Flush` | providers/common/think_parser.py:156-165 | What is held is handed out as the specification labels it |
| `ThinkParser.SplitsSettle` | providers/common/think_parser.py:44-65 | Why: running passes until nothing more can go out settles exactly the labels that no continuation can change |
| `ThinkParser.PassedSettles` | providers/common/think_parser.py:67-154 | Each pass, inside or outside a thought, is one such step |
| `ThinkParser.HeldIsShort` | providers/common/think_parser.py:82-108 | What is held between calls has at most 7 characters and is a proper prefix of one of the tags |
| `ThinkParser.EmitPrefix` | providers/common/think_parser.py:82-108 | A prefix in which no tag can start, in any continuation, is labelled as it stands |
| `ThinkParser.ConsumeTag` | providers/common/think_parser.py:110-118 | Text up to a leftmost tag, then the tag with its change of mode, agrees with the specification in every continuation |
| `ThinkParser.PartialStartsAtLastBracket` | providers/common/think_parser.py:85-96 | Only the last `<` of the buffer can begin an unfinished tag, so looking there is enough |
| `ThinkParser.ContinuesTrans` | providers/common/think_parser.py:44-65 | Settled pieces of two feeds are settled pieces of the whole |
| `MessageConverter.ConvertAssistantMessage` | providers/common/message_converter.py:62-113 | Content is the blocks in order, joined; calls and reasoning are those of the blocks; content is never empty without a call |
| `MessageConverter.ConvertAndSplit` | providers/common/message_converter.py:62-113 | From end to end, for every way of cutting the content of the converted message into chunks: the reader gets back every thinking block one by one and all text with its breaks, or the blank of an empty turn |
| `MessageConverter.PrintParseRoundTrip` | providers/common/message_converter.py:62-113 | Splitting the printed content gives back every thinking block in order, less one line break on each side, and all text with its breaks |
| `MessageConverter.ParsePrinted` | providers/common/message_converter.py:72-97 | The split content is, character by character, the blocks in order with text breaks between them |
| `MessageConverter.MarksReadBack` | providers/common/message_converter.py:72-97 | Grouping the labels gives one thinking run per thinking block, never two run together |
| `MessageConverter.JoinedParts` | providers/common/message_converter.py:60-110 | Parts are joined with the separator between each two |
| `HeuristicParser.HeuristicToolParser.Feed` | providers/common/heuristic_tool_parser.py:67-196 | Ends on every text from every state (the buffer shrinks, or the state moves from parameters to text to matching) and yields what the pure parser yields; the rows of `ParserLaws` and `CanonicalCalls` say what that is |
| `HeuristicParser.HeuristicToolParser.ParseParameters` | providers/common/heuristic_tool_parser.py:127-194 | Takes closed parameters, shows what lies between, and ends the call exactly when the rules say so |
| `HeuristicParser.HeuristicToolParser.TakeParams` | providers/common/heuristic_tool_parser.py:137-150 | The nested loop ends; parameters are taken leftmost first, later keys winning |
| `HeuristicParser.HeuristicToolParser.MatchFunction` | providers/common/heuristic_tool_parser.py:100-125 | Finds the leftmost function tag, waits, or gives the bullet up after 100 characters |
| `HeuristicParser.HeuristicToolParser.ScanText` | providers/common/heuristic_tool_parser.py:81-98 | Shows text up to the bullet, or up to an unfinished control token |
| `HeuristicParser.HeuristicToolParser.Flush` | providers/common/heuristic_tool_parser.py:198-226 | A call under way is handed out with its last unclosed parameter (`ParserLaws.UnclosedIsTaken`); text held in the other states is dropped |
| `HeuristicParser.SearchFunction` | providers/common/heuristic_tool_parser.py:32-33 | The match is the leftmost one: no earlier position matches the pattern |
| `HeuristicParser.SearchParameter` | providers/common/heuristic_tool_parser.py:33-35 | The same for the opening parameter tag |
| `HeuristicParser.NoControlToStrip` | providers/common/heuristic_tool_parser.py:44-47 | Text in which no control token begins passes their removal unchanged |
| `HeuristicParser.NoControlToHold` | providers/common/heuristic_tool_parser.py:49-65 | Nor is any of it held back |
| `ParserLaws.TokenGoes` | providers/common/heuristic_tool_parser.py:7-12 | A control token (1 to 80 characters other than a vertical bar and `>` between its ends) goes, what stands before it stays, and what stands behind it is stripped by itself |
| `ParserLaws.StripsBehind` | providers/common/heuristic_tool_parser.py:44-47 | Up to the first place where a control token begins, text stays as it is |
| `ParserLaws.FoundIsToken` | providers/common/heuristic_tool_parser.py:10 | What is taken for a control token is one |
| `ParserLaws.TokenMakesNoDifference` | providers/common/heuristic_tool_parser.py:67-77 | In any state of the parser, a control token that arrives in one piece makes no difference to what is shown, found and kept |
| `ParserLaws.TokenShowsNothing` | providers/common/heuristic_tool_parser.py:67-98 | Fed by itself to an idle parser it shows nothing |
| `ParserLaws.HeldTokenGoes` | providers/common/heuristic_tool_parser.py:49-65 | A token cut in two is held back if text comes before it, the cut is behind its opening characters, and its first part does not end in such characters again; when the rest comes, whatever follows it, none of it is shown |
| `ParserLaws.OtherTokenShows` | providers/common/heuristic_tool_parser.py:49-65 | Otherwise all of a token cut in two is shown, so the comments at lines 7-12 and 54 promise more than the code does |
| `ParserLaws.SecondCutShows` | providers/common/heuristic_tool_parser.py:49-65 | A token held back and still not whole after one more feed is shown after all |
| `ParserLaws.TextSurvives` | providers/common/heuristic_tool_parser.py:67-125 | Outside a call, text without an opening function tag is shown or held back to the last character, control tokens aside, and no call is found |
| `ParserLaws.TagOpensCall` | providers/common/heuristic_tool_parser.py:103-114 | A whole function tag behind the bullet opens a call under the stripped name, with no parameters yet |
| `ParserLaws.TextThenParameter` | providers/common/heuristic_tool_parser.py:137-150 | Text in front of a parameter is shown, the parameter is taken under its stripped key with its stripped value, and reading goes on behind it |
| `ParserLaws.TextEndsCall` | providers/common/heuristic_tool_parser.py:163-194 | Text behind a call is shown and ends the call |
| `ParserLaws.BulletEndsCall` | providers/common/heuristic_tool_parser.py:157-194 | So does a bullet: what stands before it is shown, and reading goes on at the bullet |
| `ParserLaws.UnclosedIsTaken` | providers/common/heuristic_tool_parser.py:205-224 | At the end of the stream a parameter that was never closed has all the rest as its value, and the call goes out with it |
| `ParserLaws.NothingUnclosed` | providers/common/heuristic_tool_parser.py:203-226 | With no opening tag left the call goes out as it is, and outside a call nothing does |
| `RecoveredCalls.TokenLeavesNoTrace` | providers/openai_compat.py:194-229 | A whole control token in a piece of text leaves no trace in what the client is shown and told |
| `Strings.StripIs` | providers/common/heuristic_tool_parser.py:147-148 | Stripping takes the white space around a word and nothing of the word |
| `CanonicalCalls.CallsRecoveredIffSafe` | providers/common/heuristic_tool_parser.py:67-226 | Text, then well-formed calls, in any chunking: exactly that text and those calls come out if no chunk ends with a parameter closed behind a later bullet in the buffer, or more than 100 characters into a function tag, or inside a parameter behind the `>` of a key that ends like a closing tag (right before the very last closing tag does no harm); and only if, as long as values under such keys hold no opening tag |
| `CallChunkings.OneCallSurvives` | providers/common/heuristic_tool_parser.py:67-226 | A single call whose tag keeps to the limit and whose keys do not end like a closing tag is recovered under every chunking |
| `CallChunkings.OneChunkFails` | providers/common/heuristic_tool_parser.py:136-164 | Whenever a later call has a parameter, delivering all calls in one chunk shows text that is none |
| `CanonicalCalls.LaterCallSwallowed` | providers/common/heuristic_tool_parser.py:136-155 | A parameter that is closed behind the bullet of a later call is taken for one of the call before it, and the text in front of it is shown |
| `CallChunkings.KeyClosesEarly` | providers/common/heuristic_tool_parser.py:137-150 | When a buffer ends right behind a key that ends like a closing tag, its parameter counts as closed and its value as empty |
| `CanonicalCalls.WholeParameter` | providers/common/heuristic_tool_parser.py:34-35 | A parameter that has arrived whole is read as it stands, whatever its key ends with |
| `CanonicalCalls.HasClosed` | providers/common/heuristic_tool_parser.py:137-143 | Taken for a closed parameter is any opening tag with a key that a closing tag follows, wherever that one lies |
| `CanonicalCalls.OvercutFails` | providers/common/heuristic_tool_parser.py:137-194 | A parameter cut in two spoils the outcome for good: what is left of it is shown as text, or its value is not whole |
| `CallChunkings.CutIsRepaired` | providers/common/heuristic_tool_parser.py:137-150 | Such a cut can go unnoticed when the value holds an opening tag: later parameters of the same keys put everything right |
| `CanonicalCalls.RunReads` | providers/common/heuristic_tool_parser.py:80-196 | One run of the loop moves the parser along the stream and emits exactly what is due, or shows text that is none, or leaves a parameter cut in two |
| `CanonicalCalls.FeedAllReads` | providers/common/heuristic_tool_parser.py:67-226 | From any point of the stream the rest comes out exactly under safe chunkings of the rest |
| `CanonicalCalls.ExtractReads` | providers/common/heuristic_tool_parser.py:137-150 | Closed parameters of the current call are read in order; one of a later call is read along with the text in front of it; one whose key ends like a closing tag is cut in two when the buffer ends inside it |
| `CanonicalCalls.FlushReads` | providers/common/heuristic_tool_parser.py:198-226 | When all has been fed the flush hands out the last call, complete |
| `RateLimits.RunAttempts` | messaging/limiter.py:42-62 | For every interleaving of attempts on a clock that does not go back: the grants are those of a limiter that never forgets one, and no half-open window of the given length holds more than the limit |
| `RateLimits.SlidingWindowLimiter.Attempt` | messaging/limiter.py:44-57 | Granted if and only if fewer than the limit of all grants ever given lie in the window ending now; refused with exactly the limit there, and waiting as told is enough unless somebody else is granted |
| `RateLimits.SlidingWindowLimiter.DropExpired` | providers/rate_limit.py:133-134 | What is kept is exactly the number of grants in the window |
| `RateLimits.SlidingWindowLimiter.Create` | messaging/limiter.py:31-40 | A limit or window that is not positive is refused |
| `RateLimits.GrantsAreSpaced` | providers/rate_limit.py:120-147 | A grant comes at least a window after the grant `limit` places before it |
| `RateLimits.WindowBound` | providers/rate_limit.py:120-147 | Spaced grants keep to the limit in every half-open window |
| `RateLimits.AtMostLimitPerWindow` | messaging/limiter.py:20-29 | The promise of the limiter for every sequence of attempts, for intervals that leave out one end |
| `RateLimits.AnyIntervalPromise` | messaging/limiter.py:23-27 | For intervals with both ends, and every sequence of attempts: the promise is kept if and only if no grant at the one end has the grant `limit` places later at the other |
| `RateLimits.ClosedWindow` | providers/rate_limit.py:120-147 | The same condition for any spaced grants |
| `RateLimits.PromiseFails` | providers/rate_limit.py:124-147 | For every limit and window, attempts that are all granted and put one more than the limit into one such interval |
| `Retries.GlobalRateLimiter.Acquire` | providers/rate_limit.py:120-147 | A waiting request is granted at its first turn at which there is room, with whatever others are granted meanwhile, and at no other; with no such turn it is still waiting |
| `Retries.GlobalRateLimiter.WaitIfBlocked` | providers/rate_limit.py:98-118 | It looks at the block once, at its first turn after its sleep, sleeps out what it finds, the last one set by anybody, and takes a slot at the first turn with room; without a look it had no such turn, and without a slot there was no room to the end |
| `Retries.ExecuteWithRetry` | providers/rate_limit.py:179-232 | Among any turns of other requests, which may be granted slots and may set the block in between: the request looks at the block at its first turn after its sleep, takes its slot at the first turn with room after the block it found is over, and its call comes back at its next turn; at most one call more than the retries; the grants are those of everybody, in order; the result is that of the first call not turned away or else the last error, and the account ends without one only when all turns are over and the request sleeps, finds no room or has its call out; total backoff within both the doubling and the cap budget plus jitter; jitter aside the first delay is the base and each later one twice the one before, up to the cap, and all of that is slept |
| `Retries.OnlyAccount` | providers/rate_limit.py:98-232 | That says all: with the same turns, outcomes and sleeps there is exactly one account, result, tries and turns used |
| `Retries.StuckIsTheEnd` | providers/rate_limit.py:98-147 | A request that is stuck at the end of the turns has come as far as any account of it could |
| `Retries.SlotsAreApart` | providers/rate_limit.py:204-229 | A slot comes no earlier than the slot before it plus the sleep in between, and not before the block found on the way is over |
| `Retries.OwnLieAmong` | providers/rate_limit.py:120-147 | The slots of one request lie among the new grants in their order, with those of others in between |
| `Retries.RetriesKeepSpaced` | providers/rate_limit.py:120-147 | With all of them together a grant still comes at least a window after the grant `limit` places before it |
| `Retries.FirstSettled` | providers/rate_limit.py:209-230 | The first call not turned away: all before it were |
| `Retries.BudgetStep` | providers/rate_limit.py:222-229 | One more delay keeps both budgets |
| `Retries.DelaysDouble` | providers/rate_limit.py:222-223 | For a cap that is not negative: the first delay less its jitter is the lesser of base and cap, and each later one the lesser of the cap and twice the one before |
| `Retries.BackoffIsSpent` | providers/rate_limit.py:222-229 | For a base that is not negative: with the first k of n delays not capped, the sleeps add up to exactly the base times 2^k - 1, plus the cap for each of the others, plus the jitter drawn |
| `CompactingQueue.Run` | messaging/limiter.py:130-196 | In every run of callers and the worker, measured against the book kept of the same commands: what waits, in order, and what is in flight are what the book says; each key shows the value queued last for it unless its last attempt failed, the outside world the value last delivered, and every future is waiting, in flight, or resolved as its history says |
| `CompactingQueue.EveryPutIsNoted` | messaging/limiter.py:235-262 | The requests in the book are exactly the puts among the commands, in order |
| `CompactingQueue.TakenThenEnded` | messaging/limiter.py:110-178 | A task taken by the worker and ended, with any callers in between: it has the value queued last before it was taken; on success, and only then, that is what its key has written; and every caller that waited for the key and did not give up is told that value and that outcome |
| `CompactingQueue.WhileTaken` | messaging/limiter.py:110-178 | Until it ends, nothing that callers do changes the task in hand |
| `CompactingQueue.GivenUp` | messaging/limiter.py:235-270 | A caller that gives up while its task waits or is under way is dropped, and a settled one is not |
| `CompactingQueue.Queue.Enqueue` | messaging/limiter.py:246-262 | A waiting task is replaced in place and keeps its callers; otherwise it is added at the asked end |
| `CompactingQueue.Queue.Pop` | messaging/limiter.py:143-144 | The worker gets the head of the queue with the value queued last for its key |
| `CompactingQueue.Queue.Finish` | messaging/limiter.py:156-166 | Callers still waiting are told the outcome; nobody told before is told again |
| `CompactingQueue.Queue.Abandon` | messaging/limiter.py:275-277 | A caller that gives up is done once and for all |
| `CompactingQueue.EnqueueKeeps` | messaging/limiter.py:246-262 | Replacing a waiting task loses nothing: meaning and futures are kept |
| `CompactingQueue.FinishKeeps` | messaging/limiter.py:156-166 | Ending a task keeps meaning and futures |
| `CompactingQueue.PopKeeps` | messaging/limiter.py:143-144 | Taking a task keeps meaning and futures |
| `CompactingQueue.SettledForGood` | messaging/limiter.py:159-166 | A settled future never changes, whatever happens next |
| `CompactingQueue.SettledWithLatest` | messaging/limiter.py:246-262 | A settled future was queued, its key was taken for the first time after that, and it got the value queued last before the taking |
| `TreeScheduler.Run` | messaging/trees/processor.py:64-161 | In every run of arrivals, task steps, cancellations and hand-overs: the state is that of the replay on values; at most one task is before its hand-over, the tree is busy while one is, an idle tree has an empty queue; nodes start in order of arrival with the dropped ones left out, and only nodes that a step asked to cancel are dropped |
| `TreeScheduler.Take` | messaging/trees/processor.py:64-161 | Every step does to the scheduler exactly what it does to the value of its state; and a hand-over chain that was cut stays cut, with nothing dispatched, until the whole tree is cancelled |
| `TreeScheduler.DroppedWereAskedFor` | messaging/trees/queue_manager.py:226-394 | Whatever the steps are, a dropped node was named by a cancellation or was waiting when the whole tree was cancelled; without cancellations nothing is dropped |
| `TreeScheduler.TasksHandOver` | messaging/trees/processor.py:60-127 | Nothing waits in vain: a task that was not cancelled before it ran can always be brought to its hand-over, whatever state it is in, and then the first node waiting is dispatched, or the tree is free if none is |
| `TreeScheduler.ReplayOn` | messaging/trees/processor.py:60-127 | What more steps make of a run is what they make of its last state |
| `TreeScheduler.CancelsTakeEffect` | messaging/trees/queue_manager.py:226-394 | A node cancelled no longer waits; a tree cancelled with no task before its hand-over is free; a task cancelled before it runs never starts, and one cancelled outside its handler can end without handing over |
| `TreeScheduler.Scheduler.EnqueueAndStart` | messaging/trees/processor.py:129-161 | Queued exactly when the tree is busy; otherwise dispatched at once |
| `TreeScheduler.Scheduler.ProcessNext` | messaging/trees/processor.py:98-127 | The head of the queue is dispatched, or the tree becomes free; never both a live task and a cut chain |
| `TreeScheduler.Scheduler.StartTask` | messaging/trees/processor.py:70-81 | A node already failed skips its handler and still hands over |
| `TreeScheduler.Scheduler.ClearCurrentNode` | messaging/trees/processor.py:92-94 | The current node is cleared before the hand-over, which is still to come |
| `TreeScheduler.Scheduler.Die` | messaging/trees/processor.py:80-96 | A task cancelled outside its handler cuts the chain and leaves the tree busy |
| `TreeScheduler.Scheduler.CancelNode` | messaging/trees/queue_manager.py:278-313 | The node leaves the queue, the others keep their order; only the task of this very node can be asked to stop |
| `TreeScheduler.Scheduler.CancelBranch` | messaging/trees/queue_manager.py:374-390 | The queue afterwards is the old one without the unsettled nodes of the branch, in the same order; dropped are exactly those of them that waited; the current task is asked to stop if and only if its node is one of them, and nothing else changes |
| `TreeScheduler.Scheduler.CancelTree` | messaging/trees/queue_manager.py:226-276 | The current task, if there is one, is asked to stop, and it is the current node's own while the chain is not cut; no other is. The queue is drained and the flag dropped; what the tree promises survives if and only if no task was before its hand-over |
| `TreeScheduler.CancelTreeThenEnqueue` | messaging/trees/queue_manager.py:240-267 | In every state with a task before its hand-over, cancelling the tree and enqueueing a node leaves two such tasks |
| `TreeScheduler.SnapshotQueue.RemoveIfPresent` | messaging/trees/data.py:50-56 | The queue without the item, order kept; the set stays equal to the elements of the queue |
| `TreeScheduler.SnapshotQueue.Get` | messaging/trees/data.py:36-41 | The oldest item, or none |
| `TreeScheduler.SnapshotQueue.Put` | messaging/trees/data.py:28-34 | The item goes to the end, whatever is waiting; queue and set stay in step if and only if it was not waiting already |
| `TreeScheduler.DispatchKeepsOrder` | messaging/trees/processor.py:107-122 | Dispatching the head keeps order of arrival and of tasks |
| `TreeScheduler.DropKeepsOrder` | messaging/trees/queue_manager.py:304-309 | Dropping nodes from the queue keeps order of arrival of the rest |
| `TreeScheduler.Scheduler.CurrentIsNotWaiting` | messaging/trees/queue_manager.py:383-390 | The current node is never in the queue as well |
| `MessageTrees.MessageTree.AddNode` | messaging/trees/data.py:189-225 | Refused exactly when the parent is unknown; otherwise the node hangs under its parent, and the tree stays a tree if and only if both ids are new to it |
| `MessageTrees.MessageTree.GetDescendants` | messaging/trees/data.py:437-454 | Ends, and lists exactly the nodes that reach the given one by parent links, each once |
| `MessageTrees.MessageTree.RemoveBranch` | messaging/trees/data.py:456-484 | Removes exactly the subtree from both maps and from the parent's children; a tree is left if and only if it was not the root |
| `MessageTrees.MessageTree.FindByStatus` | messaging/trees/data.py:432-435 | The node found owns the status message; none found means none owns it |
| `MessageTrees.MessageTree.GetPendingChildren` | messaging/trees/repository.py:99-124 | Ends, and lists exactly the nodes that pending nodes alone connect to the given one, each once |
| `MessageTrees.MessageTree.MarkNodeError` | messaging/trees/queue_manager.py:185-224 | Exactly the node and that closure fail, each reported once, no other node changes, and no failed node keeps a pending child |
| `MessageTrees.MessageTree.CancelBranch` | messaging/trees/queue_manager.py:361-394 | In whatever order the subtree is gone through: exactly its unsettled nodes fail and are reported, none is left unsettled, the queue loses exactly them, and the running task is asked to stop exactly if it is one of theirs |
| `MessageTrees.MessageTree.CancelNode` | messaging/trees/queue_manager.py:278-313 | Exactly this node fails and is reported, if it is there and unsettled; the queue loses it, and the running task is asked to stop exactly if it is its own |
| `MessageTrees.MessageTree.CancelTree` | messaging/trees/queue_manager.py:226-276 | The current task, if there is one, is asked to stop, and no other is. Reported are the current node, if it could be stopped and was unsettled, then the waiting nodes in order; nothing unsettled is left, the queue is empty, and the tree keeps its promises if and only if no task was before its hand-over |
| `MessageTrees.Reported` | messaging/trees/queue_manager.py:240-255 | Reported are exactly the current node, if its task could be stopped and it was neither completed nor in error, and the waiting nodes the tree still holds |
| `MessageTrees.NoneUnsettled` | messaging/trees/queue_manager.py:257-265 | With nothing unsettled left, every node is completed or in error |
| `MessageTrees.MessageTree.UpdateState` | messaging/trees/data.py:258-280 | One node changes its state, if it is there |
| `MessageTrees.MessageTree.FromDict` | messaging/trees/data.py:406-422 | The nodes read back are those stored, and the rebuilt index is the only one that is the inverse of their statuses |
| `MessageTrees.AllUnderRoot` | messaging/trees/data.py:150-158 | Every node of a tree reaches the root |
| `MessageTrees.GrowKeepsShape` | messaging/trees/data.py:207-222 | Growing keeps parent links, child links and the status index right exactly for new ids |
| `MessageTrees.PruneKeepsShape` | messaging/trees/data.py:469-481 | Pruning keeps them right exactly below the root |
| `MessageTrees.FrontierIsSubtree` | messaging/trees/data.py:446-454 | With the stack empty the visited nodes are the subtree, none twice |
| `MessageTrees.KidIsNew` | messaging/trees/data.py:448-453 | A child of a node on the stack was never met before |
| `MessageTrees.ClosureIsClosed` | messaging/trees/repository.py:110-124 | A pending child of a node in the closure is in the closure |
| `TreeRepositories.Run` | messaging/trees/repository.py:74-188 | After any run with fresh ids, restarts included, every id resolves to what the list of live messages of the same operations says (the live message that it is or whose status message it is), and the ids of all branches cleared, with their status messages, to none |
| `TreeRepositories.Handle` | messaging/trees/queue_manager.py:56-126 | Each operation (a conversation opened, a reply, a branch cleared, a restart) does to the trees and the map what it does to that list |
| `MessageLists.DoomedIsSubtree` | messaging/trees/data.py:437-454 | Going through the list once, from the oldest message on, finds exactly the subtree that the parent links give |
| `MessageLists.FelledMirrors` | messaging/trees/data.py:456-484 | Clearing a branch takes the same messages from the list and from the trees, with the same status ids |
| `TreeRepositories.TreeRepository.ResolveIsRight` | messaging/trees/repository.py:74-97 | In every reachable state: an answer is a live node that is the message or owns it; live nodes and registered status messages are found; removed ids are not, whatever the map still holds |
| `TreeRepositories.TreeRepository.CreateTree` | messaging/trees/queue_manager.py:56-85 | A new tree with its root known to the map; all others as before |
| `TreeRepositories.TreeRepository.AddToTree` | messaging/trees/queue_manager.py:87-126 | Accepted exactly when the parent is a live node (a status id is not); only its tree grows |
| `TreeRepositories.TreeRepository.RegisterNode` | messaging/trees/repository.py:46-48 | The map takes any entry, and stays right if and only if the id was made for that tree, as the handler's status messages are |
| `TreeRepositories.TreeRepository.RemoveBranch` | messaging/trees/queue_manager.py:396-424 | Exactly the subtree goes, from its tree and from the map; the whole tree goes if it is the root's |
| `TreeRepositories.TreeRepository.RemoveTree` | messaging/trees/repository.py:139-152 | All nodes of the tree leave the map |
| `TreeRepositories.TreeRepository.UnregisterNodes` | messaging/trees/repository.py:134-137 | Only the given ids leave the map |
| `TreeRepositories.TreeRepository.FromDict` | messaging/trees/repository.py:179-188 | The map and the trees read back are those stored |
| `TreeRepositories.StoreAndRestore` | messaging/trees/repository.py:172-188 | Storing and reading back gives the same stored form again and changes no answer |
| `TreeRepositories.SameAnswers` | messaging/trees/repository.py:172-188 | Why: the index read back is the old one |
| `TreeRepositories.TreeRepository.LiveIsMapped` | messaging/trees/repository.py:28-33 | The map leads every live node, and no other id, to the tree that holds it |
| `Transcript.Render` | messaging/transcript.py:522-577 | At most the limit or just the status; ends with the status; everything if it fits, else the longest suffix of whole segments that fits, else the limit filled exactly with the end of the last segment, else marker and status, else the status |
| `Transcript.Fallback` | messaging/transcript.py:560-577 | With more than 20 characters to spare the result has exactly the limit's length and shows a proper end of the last segment |
| `Transcript.LastAloneIsTooLong` | messaging/transcript.py:560-565 | When nothing fits the last segment alone is too long, so it is always cut and never shown whole here |
| `Transcript.ShorterFitsToo` | messaging/transcript.py:548-558 | Fitting is kept by dropping older segments, so the first fit found is the longest |
| `Transcript.AllVisible` | messaging/transcript.py:524-532 | Segments that all render to something are shown one and all, in order |
| `Transcript.InvisibleLeavesNoTrace` | messaging/transcript.py:524-532 | One that fails to render or renders to nothing leaves no trace |
| `Transcript.LinesConcat` | messaging/transcript.py:544-547 | Segments are put one under the other |
| `Transcript.PlainStatusIsShown` | messaging/transcript.py:534-541 | A status without a leading newline stands whole at the end |
| `Transcript.TranscriptBuffer.SubagentPush` | messaging/transcript.py:252-265 | A Task call is tracked under its id, or under a made-up one |
| `Transcript.TranscriptBuffer.SubagentPop` | messaging/transcript.py:267-327 | The topmost matching entry goes with all above it, in both stacks alike; without a match nothing changes |
| `Transcript.TranscriptBuffer.CloseOnResult` | messaging/transcript.py:486-506 | The same for a tool result, with the extra rule for Tasks without an id |
| `Transcript.ResultClosesNone` | messaging/transcript.py:272-300 | A result leaves all subagents open if and only if its id extends, and is extended by, no open one and the extra rule does not apply; without an id it closes a Task tracked under a made-up one, and only such |
| `Transcript.ResultClosesTop` | messaging/transcript.py:267-327 | A result closes the topmost subagent and no other if and only if their ids match or the extra rule applies to it |
| `Transcript.SameIdIsOwn` | messaging/transcript.py:267-327 | In particular when it repeats the id of the call, white space aside, or lacks one as the call does |
| `Transcript.NestingIsUndone` | messaging/transcript.py:252-327 | However Tasks nest and whatever the ids of calls and results, each result closes its own Task and no other, as long as it belongs to that Task and ordinary results match no open one |
| `Transcript.TopMatch` | messaging/transcript.py:294-299 | The match found is the topmost |

## Left out

- StreamResponse: what the tool parser makes of text that is neither clean nor well-formed calls is given by the pure parser of `HeuristicParser` and the laws of `ParserLaws`, which do not cover all of it: a badly written call has no meaning of its own to compare with.
- ReadStream: a client that disconnects, or a cancelled request, ends the event sequence early; only the exceptions the source catches are modelled.
- CallsRecoveredIffSafe: the converse is not claimed when a value under a key that ends like a closing tag holds an opening tag; `CallChunkings.CutIsRepaired` shows that it is then false. Covers text without control tokens, about which `ParserLaws` has its own laws.
- UpdateState: session id, error text and completion time are not kept.
- RemoveBranch: for a root the source cancels the tree first; in the repository that call is left to the scheduler.
- CancelBranch: the descendants are taken together with the lock; in the source a reply may be added in between and is then left alone.
- AddToTree: the source adds the node and maps its id under two locks; here it is one step.
- MarkNodeError: the source gives up control between nodes; here it is one step. Error texts and times are not kept.
- ExecuteWithRetry: the number of concurrent requests is not modelled; the logging and the return value of `wait_if_blocked` are not kept.
- Finish: the pause after a flood error, the shutdown of the worker and a cancelled worker are not modelled.
- Attempt: floating-point rounding of clock readings is not modelled.
- Render: escaping and the rendering of single segments are parameters; `apply` is modelled only as far as the subagent stack goes.
- SubagentPop: the segments stacked beside the ids are kept as plain values.
- Liveness: `TreeScheduler.TasksHandOver` shows that a waiting node can be reached; no claim is made that the event loop ever runs a task, or that a waiting caller is ever granted.
- Token counts, message and tool ids, models and usage numbers in events; logging.
- `estimate_output_tokens`, the user-message, system-prompt and tool converters: they would add only simple members.
- HTTP clients, request bodies, provider subclasses (their extra reasoning is a list of strings), settings, routes, launchers.
- Platform adapters, Markdown rendering, voice transcription, session files and the command handlers: input and output, or the file system.
- The handler's life cycle of a message, in which a failed exit may turn a failed node into a completed one.
