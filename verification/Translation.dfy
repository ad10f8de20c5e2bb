/** What the content of a stream becomes: the tag splitter cuts it into pieces, thinking is shown as it
    is, and text goes through the tool parser, which shows text and recovers calls. */
module Translation {
  import opened Strings
  import opened Wrappers
  import opened ThinkParser
  import opened SseTrace
  import opened ToolCalls
  import opened Upstream
  import H = HeuristicParser

  // ---------------------------------------------------------------- plain text

  /** Free of the bullet and of the start of a control token. */
  ghost predicate Clean(s: string) {
    (forall i :: 0 <= i < |s| ==> s[i] != H.BULLET) && H.NoControl(s)
  }

  lemma CleanPiece(s: string, i: nat, j: nat)
    requires Clean(s) && i <= j <= |s|
    ensures Clean(s[i..j])
  {
    H.NoControlPiece(s, i, j);
  }

  ghost predicate Idle(p: H.Parser) {
    p.mode == H.TextMode && p.buffer == ""
  }

  lemma CleanHasNoBullet(s: string)
    requires Clean(s)
    ensures Find(s, [H.BULLET], 0) == -1
  {
    forall i
      ensures !At(s, [H.BULLET], i)
    {
      if 0 <= i < |s| {
        assert s[i..i + 1] == [s[i]];
      }
    }
  }

  /** The tool parser lets clean text through unchanged. */
  lemma CleanPassesThrough(p: H.Parser, s: string)
    requires Idle(p) && Clean(s)
    ensures H.Fed(p, s) == (p, H.Output(s, []))
  {
    hide Find, H.SafePrefix, H.StripControl;
    assert p.buffer + s == s;
    H.NoControlToStrip(s);
    H.NoControlToHold(s);
    CleanHasNoBullet(s);
    var q := p.(buffer := s);
    assert H.StepOnce(q) == H.Stop(p, H.Output(s, []));
  }

  // ---------------------------------------------------------------- what is shown

  function TextOnly(x: seq<Labelled>): seq<Labelled> {
    if x == [] then []
    else TextOnly(x[..|x| - 1]) + (if x[|x| - 1].kind == Text then [x[|x| - 1]] else [])
  }

  lemma {:induction false} TextOnlyConcat(a: seq<Labelled>, b: seq<Labelled>)
    ensures TextOnly(a + b) == TextOnly(a) + TextOnly(b)
  {
    if b == [] {
      assert a + b == a;
      assert TextOnly(a) + [] == TextOnly(a);
    } else {
      TextOnlyConcat(a, b[..|b| - 1]);
      assert (a + b)[..|a + b| - 1] == a + b[..|b| - 1];
    }
  }

  lemma {:induction false} TextOnlyLabel(kind: ContentType, s: string)
    ensures TextOnly(Label(kind, s)) == if kind == Text then Label(kind, s) else []
  {
    if s != "" {
      TextOnlyLabel(kind, s[..|s| - 1]);
      assert Label(kind, s)[..|s| - 1] == Label(kind, s[..|s| - 1]);
    }
  }

  /** All labels, or the text alone when other channels add thinking of their own. */
  function Sift(all: bool, x: seq<Labelled>): seq<Labelled> {
    if all then x else TextOnly(x)
  }

  lemma SiftConcat(all: bool, a: seq<Labelled>, b: seq<Labelled>)
    ensures Sift(all, a + b) == Sift(all, a) + Sift(all, b)
  {
    TextOnlyConcat(a, b);
  }

  // ---------------------------------------------------------------- piece by piece

  /** A call, and after how many characters of text and thinking it comes. */
  datatype Placed = Placed(tool: H.ToolUse, after: nat)

  function PlacedAt(tools: seq<H.ToolUse>, after: nat): seq<Placed> {
    seq(|tools|, i requires 0 <= i < |tools| => Placed(tools[i], after))
  }

  function Uses(calls: seq<Placed>): seq<H.ToolUse> {
    seq(|calls|, i requires 0 <= i < |calls| => calls[i].tool)
  }

  lemma UsesConcat(a: seq<Placed>, b: seq<H.ToolUse>, after: nat)
    ensures Uses(a + PlacedAt(b, after)) == Uses(a) + b
  {
  }

  /** What becomes of one piece: the tool parser's state after it, what is shown, and the calls found. */
  function One(p: H.Parser, part: ContentChunk): (H.Parser, seq<Labelled>, seq<H.ToolUse>) {
    if part.kind == Thinking then (p, Label(Thinking, part.content), [])
    else
      var (q, out) := H.Fed(p, part.content);
      (q, Label(Text, out.text), out.tools)
  }

  /** The tool parser's state, the text and thinking shown, and the calls recovered, each behind all
      that was shown when it came out. */
  datatype Show = Show(parser: H.Parser, labels: seq<Labelled>, tools: seq<Placed>)

  function ShowMore(s: Show, part: ContentChunk): Show {
    var (q, labels, tools) := One(s.parser, part);
    Show(q, s.labels + labels, s.tools + PlacedAt(tools, |s.labels + labels|))
  }

  function Shows(parts: seq<ContentChunk>): Show {
    if parts == [] then Show(H.FRESH, [], [])
    else ShowMore(Shows(parts[..|parts| - 1]), parts[|parts| - 1])
  }

  lemma ShowsNext(parts: seq<ContentChunk>, part: ContentChunk)
    ensures Shows(parts + [part]) == ShowMore(Shows(parts), part)
  {
    assert (parts + [part])[..|parts|] == parts;
  }

  function ToolInput(tool: H.ToolUse): Json {
    var fields := map k | k in tool.input :: Str(tool.input[k]);
    if tool.name == TASK then Foreground(fields) else Dict(fields)
  }

  /** How recovered calls are told of: name and arguments, Tasks in the foreground, each in its place. */
  function CallMarks(codec: Codec, calls: seq<Placed>): seq<Mark> {
    if calls == [] then []
    else
      var Placed(last, after) := calls[|calls| - 1];
      CallMarks(codec, calls[..|calls| - 1]) + [CallName(last.name, after), CallArgs(codec.dumps(ToolInput(last)), after)]
  }

  /** A call found in a piece comes behind all that is shown for that piece and those before it. */
  lemma {:induction false} CallsComeBehind(parts: seq<ContentChunk>, i: nat, n: nat)
    requires i < |parts| && |Shows(parts[..i]).tools| <= n < |Shows(parts[..i + 1]).tools|
    ensures n < |Shows(parts).tools| && Shows(parts).tools[n].after == |Shows(parts[..i + 1]).labels|
    decreases |parts|
  {
    hide Shows, ShowMore;
    var m := |parts| - 1;
    ShowsNext(parts[..m], parts[m]);
    NewCallsLast(Shows(parts[..m]), parts[m]);
    assert parts[..m + 1] == parts && parts[..m] + [parts[m]] == parts;
    if i < m {
      assert parts[..m][..i] == parts[..i] && parts[..m][..i + 1] == parts[..i + 1];
      CallsComeBehind(parts[..m], i, n);
    }
  }

  lemma NewCallsLast(s: Show, part: ContentChunk)
    ensures var r := ShowMore(s, part);
            && s.tools <= r.tools && (forall n :: 0 <= n < |s.tools| ==> r.tools[n] == s.tools[n])
            && forall n :: |s.tools| <= n < |r.tools| ==> r.tools[n].after == |r.labels|
  {
    hide Label, H.Fed;
  }

  /** The arguments told for a recovered call: its parameters as strings, and nothing else but that a Task
      runs in the foreground. */
  ghost predicate Tells(codec: Codec, tool: H.ToolUse, payload: string) {
    exists f: map<string, Json> :: payload == codec.dumps(Dict(f)) && GivenTo(tool, f)
  }

  ghost predicate GivenTo(tool: H.ToolUse, f: map<string, Json>) {
    && (forall k :: k in f <==> k in tool.input || (tool.name == TASK && k == BACKGROUND))
    && (forall k :: k in tool.input && !(tool.name == TASK && k == BACKGROUND) ==> f[k] == Str(tool.input[k]))
    && (tool.name == TASK ==> f[BACKGROUND] == Bool(false))
  }

  /** Every call is told of by its name and its arguments, in order and each in its place. */
  ghost predicate ToldInFull(codec: Codec, calls: seq<Placed>, marks: seq<Mark>) {
    && |marks| == 2 * |calls|
    && forall i :: 0 <= i < |calls| ==> ToldAt(codec, calls[i], marks, 2 * i)
  }

  ghost predicate ToldAt(codec: Codec, call: Placed, marks: seq<Mark>, n: int) {
    && 0 <= n < |marks| - 1
    && marks[n] == CallName(call.tool.name, call.after)
    && marks[n + 1].CallArgs? && marks[n + 1].after == call.after && Tells(codec, call.tool, marks[n + 1].payload)
  }

  lemma InputTells(codec: Codec, tool: H.ToolUse)
    ensures Tells(codec, tool, codec.dumps(ToolInput(tool)))
  {
    var f := ToolInput(tool).fields;
    assert GivenTo(tool, f);
  }

  lemma {:induction false} MarksTell(codec: Codec, calls: seq<Placed>)
    ensures ToldInFull(codec, calls, CallMarks(codec, calls))
  {
    hide Tells, ToolInput;
    if calls != [] {
      var init, last := calls[..|calls| - 1], calls[|calls| - 1];
      MarksTell(codec, init);
      InputTells(codec, last.tool);
      var marks, before := CallMarks(codec, calls), CallMarks(codec, init);
      assert marks == before + [CallName(last.tool.name, last.after), CallArgs(codec.dumps(ToolInput(last.tool)), last.after)];
      forall i | 0 <= i < |calls|
        ensures ToldAt(codec, calls[i], marks, 2 * i)
      {
        if i < |init| {
          assert calls[i] == init[i] && ToldAt(codec, init[i], before, 2 * i);
        }
      }
    }
  }

  lemma {:induction false} CallMarksConcat(codec: Codec, a: seq<Placed>, b: seq<Placed>)
    ensures CallMarks(codec, a + b) == CallMarks(codec, a) + CallMarks(codec, b)
  {
    if b == [] {
      assert a + b == a;
      assert CallMarks(codec, a) + [] == CallMarks(codec, a);
    } else {
      CallMarksConcat(codec, a, b[..|b| - 1]);
      assert (a + b)[..|a + b| - 1] == a + b[..|b| - 1];
    }
  }

  // ---------------------------------------------------------------- pieces of the content

  /** The pieces are what the splitter has cut off so far. */
  ghost predicate Pieces(fed: string, parts: seq<ContentChunk>) {
    forall c :: c in parts ==> c.content != "" && IsPiece(c.content, fed)
  }

  lemma PiecesGrow(fed: string, held: string, content: string, parts: seq<ContentChunk>, more: seq<ContentChunk>)
    requires Pieces(fed, parts) && IsSuffix(held, fed)
    requires forall c :: c in more ==> c.content != "" && IsPiece(c.content, held + content)
    ensures Pieces(fed + content, parts + more)
  {
    forall c | c in parts + more
      ensures c.content != "" && IsPiece(c.content, fed + content)
    {
      if c in parts {
        var i, j :| 0 <= i <= j <= |fed| && c.content == fed[i..j];
        assert (fed + content)[i..j] == fed[i..j];
      } else {
        var i, j :| 0 <= i <= j <= |held + content| && c.content == (held + content)[i..j];
        var skip := |fed| - |held|;
        assert held + content == (fed + content)[skip..];
        assert c.content == (fed + content)[skip + i..skip + j];
      }
    }
  }

  lemma HeldSuffix(fed: string, held: string, content: string, held': string)
    requires IsSuffix(held, fed) && IsSuffix(held', held + content)
    ensures IsSuffix(held', fed + content)
  {
    assert held + content == (fed + content)[|fed| - |held|..];
  }

  // ---------------------------------------------------------------- from the chunks

  /** What the splitter holds, the pieces of content it has cut off, and with the reasoning in between
      all that has been shown or put through the tool parser. */
  datatype Flow = Flow(splitter: Splitter, pieces: seq<ContentChunk>, items: seq<ContentChunk>)

  function Thought(s: string): seq<ContentChunk> {
    if s == "" then [] else [ContentChunk(Thinking, s)]
  }

  function Taken(s: Splitter, content: string): (seq<ContentChunk>, Splitter) {
    if content == "" then ([], s) else SplitFed(s, content)
  }

  function FlowMore(f: Flow, chunk: Chunk): Flow {
    if chunk.Empty? then f
    else
      var (pieces, splitter) := Taken(f.splitter, chunk.content);
      Flow(splitter, f.pieces + pieces, f.items + Thought(Reasoning(chunk)) + pieces)
  }

  function Flows(chunks: seq<Chunk>): Flow {
    if chunks == [] then Flow(UNSPLIT, [], [])
    else FlowMore(Flows(chunks[..|chunks| - 1]), chunks[|chunks| - 1])
  }

  lemma FlowsNext(chunks: seq<Chunk>, n: nat)
    requires n < |chunks|
    ensures Flows(chunks[..n + 1]) == FlowMore(Flows(chunks[..n]), chunks[n])
  {
    assert chunks[..n + 1][..n] == chunks[..n];
  }

  function HeldLabels(f: Flow): seq<Labelled> {
    Label(Mode(f.splitter.inThink), f.splitter.buffer)
  }

  /** The pieces are what the splitter has settled of the content. */
  lemma {:induction false} FlowSettles(chunks: seq<Chunk>)
    ensures var f, fed := Flows(chunks), Contents(chunks);
            && Held(f.splitter) && Continues(false, fed, Labels(f.pieces), f.splitter.inThink, f.splitter.buffer)
            && IsSuffix(f.splitter.buffer, fed) && Pieces(fed, f.pieces)
  {
    hide Parse, Label, Labels, Continues, Partial, Splits, Pieces, IsSuffix;
    if chunks == [] {
      StartChunks();
      NoPieces();
    } else {
      var init, last := chunks[..|chunks| - 1], chunks[|chunks| - 1];
      FlowSettles(init);
      var f, fed := Flows(init), Contents(init);
      if last.Delta? && last.content != "" {
        FlowSettlesNext(f, fed, last.content);
      } else {
        assert fed + "" == fed && f.pieces + [] == f.pieces;
      }
    }
  }

  lemma NoPieces()
    ensures Pieces("", []) && IsSuffix("", "")
  {
  }

  lemma FlowSettlesNext(f: Flow, fed: string, content: string)
    requires Held(f.splitter) && Continues(false, fed, Labels(f.pieces), f.splitter.inThink, f.splitter.buffer)
    requires IsSuffix(f.splitter.buffer, fed) && Pieces(fed, f.pieces)
    ensures var (more, t) := SplitFed(f.splitter, content);
            && Held(t) && Continues(false, fed + content, Labels(f.pieces + more), t.inThink, t.buffer)
            && IsSuffix(t.buffer, fed + content) && Pieces(fed + content, f.pieces + more)
  {
    var s := f.splitter.(buffer := f.splitter.buffer + content);
    var (more, t) := Splits(s);
    SplitsSettle(s);
    hide Parse, Label, Labels, Continues, Partial, Splits;
    ContinuesTrans(false, fed, Labels(f.pieces), f.splitter.inThink, f.splitter.buffer, content, Labels(more), t.inThink, t.buffer);
    LabelsConcat(f.pieces, more);
    HeldSuffix(fed, f.splitter.buffer, content, t.buffer);
    PiecesGrow(fed, f.splitter.buffer, content, f.pieces, more);
  }

  /** The pieces and what is held are the one-shot parse of the content, however it is cut. */
  lemma FlowIsParse(chunks: seq<Chunk>)
    ensures var f := Flows(chunks); Parse(false, Contents(chunks)) == Labels(f.pieces) + HeldLabels(f) && Held(f.splitter)
  {
    FlowSettles(chunks);
    var f, fed := Flows(chunks), Contents(chunks);
    FlushPartial(f.splitter.inThink, f.splitter.buffer);
    hide Parse, Labels, Flows, Contents;
    assert fed + "" == fed && f.splitter.buffer + "" == f.splitter.buffer;
  }

  /** Without reasoning the items are the pieces; with it they have the same text. */
  lemma {:induction false} FlowItems(chunks: seq<Chunk>)
    ensures var f := Flows(chunks); TextOnly(Labels(f.items)) == TextOnly(Labels(f.pieces))
    ensures forall c :: c in Flows(chunks).items && c.kind == Text ==> c in Flows(chunks).pieces
    ensures NoReasoning(chunks) ==> Flows(chunks).items == Flows(chunks).pieces
  {
    hide Labels, Label, TextOnly, Splits, Join;
    if chunks != [] {
      var init, last := chunks[..|chunks| - 1], chunks[|chunks| - 1];
      FlowItems(init);
      assert chunks == init + [last];
      if last.Delta? {
        var f, thought, more := Flows(init), Thought(Reasoning(last)), Taken(Flows(init).splitter, last.content).0;
        assert thought == [] ==> f.items + thought + more == f.items + more;
        SameText(f.items, f.pieces, Reasoning(last), more);
      }
    }
  }

  lemma SameText(items: seq<ContentChunk>, pieces: seq<ContentChunk>, reasoning: string, more: seq<ContentChunk>)
    requires TextOnly(Labels(items)) == TextOnly(Labels(pieces))
    ensures TextOnly(Labels(items + Thought(reasoning) + more)) == TextOnly(Labels(pieces + more))
  {
    hide Label, TextOnly;
    LabelsConcat(items + Thought(reasoning), more);
    LabelsConcat(items, Thought(reasoning));
    LabelsConcat(pieces, more);
    OneThought(reasoning);
    TextOnlyConcat(Labels(items) + Labels(Thought(reasoning)), Labels(more));
    TextOnlyConcat(Labels(items), Labels(Thought(reasoning)));
    TextOnlyConcat(Labels(pieces), Labels(more));
    assert TextOnly(Labels(items)) + [] == TextOnly(Labels(items));
    hide Labels, Thought;
  }

  lemma OneThought(reasoning: string)
    ensures Labels(Thought(reasoning)) == Label(Thinking, reasoning) && TextOnly(Labels(Thought(reasoning))) == []
  {
    TextOnlyLabel(Thinking, reasoning);
    assert reasoning != "" ==> Thought(reasoning)[..0] == [];
    assert [] + Label(Thinking, reasoning) == Label(Thinking, reasoning);
  }

  /** Clean content is shown as the splitter labels it, and no call is found in it. */
  lemma {:induction false} CleanShows(fed: string, items: seq<ContentChunk>)
    requires Clean(fed) && forall c :: c in items && c.kind == Text ==> IsPiece(c.content, fed)
    ensures Shows(items) == Show(H.FRESH, Labels(items), [])
  {
    hide Clean, H.Fed, Label;
    if items != [] {
      var init, last := items[..|items| - 1], items[|items| - 1];
      CleanShows(fed, init);
      assert last in items;
      if last.kind == Text {
        var i, j :| 0 <= i <= j <= |fed| && last.content == fed[i..j];
        CleanPiece(fed, i, j);
        CleanPassesThrough(H.FRESH, last.content);
      }
    }
  }

  // ---------------------------------------------------------------- the whole message

  /** The calls recovered once the stream is over, the last of them perhaps only then. */
  function CallsFound(f: Flow, error: Option<string>): seq<Placed> {
    var s, note := Shows(f.items), if error.Some? then Label(Text, error.value) else [];
    s.tools + PlacedAt(H.Flushed(s.parser).1, |s.labels + note + HeldLabels(f)|)
  }

  /** Everything said about reasoning and content once the stream is over: the items as above, then the
      message of an error, what is left of an unfinished tag, a call still under way, and a blank if there
      would be no text at all. Every call is told of behind exactly what was shown before it. */
  ghost predicate Translated(codec: Codec, f: Flow, body: seq<Event>, native: set<int>, error: Option<string>, noTools: bool) {
    var s, held := Shows(f.items), HeldLabels(f);
    var note := if error.Some? then Label(Text, error.value) else [];
    var blank := if error.None? && TextOnly(s.labels) == [] && TextOnly(held) == [] && noTools then Label(Text, " ") else [];
    && Content(body) == s.labels + note + held + blank
    && Recovered(body, native) == CallMarks(codec, CallsFound(f, error))
  }

  /** Clean content is shown whole. Without reasoning the client sees the one-shot parse; with it, the
      reasoning comes in between and the text is that of the one-shot parse. The message of an error
      comes before an unfinished tag; a blank comes when there is nothing else to show. */
  ghost predicate ContentShown(chunks: seq<Chunk>, body: seq<Event>, native: set<int>, error: Option<string>, noTools: bool) {
    var f, parsed := Flows(chunks), Parse(false, Contents(chunks));
    var all, cut := NoReasoning(chunks), |Sift(NoReasoning(chunks), Labels(Flows(chunks).pieces))|;
    var shown := Sift(all, Content(body));
    && Recovered(body, native) == []
    && Labels(f.items) <= Content(body)
    && match error
       case Some(message) =>
         cut <= |Sift(all, parsed)| && shown == Sift(all, parsed)[..cut] + Label(Text, message) + Sift(all, parsed)[cut..]
       case None =>
         shown == Sift(all, parsed) + (if TextOnly(parsed) == [] && noTools then Label(Text, " ") else [])
  }

  lemma CleanIsShown(codec: Codec, chunks: seq<Chunk>, body: seq<Event>, native: set<int>, error: Option<string>, noTools: bool)
    requires Translated(codec, Flows(chunks), body, native, error, noTools) && Clean(Contents(chunks))
    ensures ContentShown(chunks, body, native, error, noTools)
  {
    var all, f := NoReasoning(chunks), Flows(chunks);
    FlowIsParse(chunks);
    CleanFlow(chunks);
    NothingHeld(codec);
    hide Clean, Parse, TextOnly, Content, Sift, Shows, Labels, Label, Recovered, Pieces, CallMarks, Flows, Contents, HeldLabels, Continues, NoReasoning, H.Flushed, H.FRESH;
    CleanLabels(all, Labels(f.items), Labels(f.pieces), HeldLabels(f), error, noTools, Content(body));
  }

  lemma CleanFlow(chunks: seq<Chunk>)
    requires Clean(Contents(chunks))
    ensures var f := Flows(chunks);
            && Shows(f.items) == Show(H.FRESH, Labels(f.items), [])
            && TextOnly(Labels(f.items)) == TextOnly(Labels(f.pieces)) && (NoReasoning(chunks) ==> f.items == f.pieces)
  {
    FlowSettles(chunks);
    FlowItems(chunks);
    hide Clean, Shows, Labels, Flows, Contents, TextOnly, NoReasoning, Continues;
    CleanShows(Contents(chunks), Flows(chunks).items);
  }

  /** The items, the note, the rest and the blank, against what the splitter settles. */
  lemma CleanLabels(all: bool, items: seq<Labelled>, front: seq<Labelled>, held: seq<Labelled>, error: Option<string>, noTools: bool,
                    shown: seq<Labelled>)
    requires TextOnly(items) == TextOnly(front) && (all ==> items == front)
    requires shown == items + (if error.Some? then Label(Text, error.value) else []) + held
                      + (if error.None? && TextOnly(items) == [] && TextOnly(held) == [] && noTools then Label(Text, " ") else [])
    ensures items <= shown
    ensures |Sift(all, front)| <= |Sift(all, front + held)|
    ensures error.Some? ==> Sift(all, shown) == Sift(all, front + held)[..|Sift(all, front)|] + Label(Text, error.value)
                                              + Sift(all, front + held)[|Sift(all, front)|..]
    ensures error.None? ==> Sift(all, shown) == Sift(all, front + held)
                                              + (if TextOnly(front + held) == [] && noTools then Label(Text, " ") else [])
  {
    hide TextOnly, Label, Sift;
    var note := if error.Some? then error.value else "";
    var blank := if error.None? && TextOnly(items) == [] && TextOnly(held) == [] && noTools then " " else "";
    SiftText(true, "");
    SameSift(all, items, front);
    TextOnlyConcat(front, held);
    SiftConcat(all, front, held);
    SiftWhole(all, items, note, held, blank);
    PutIn(Sift(all, front), Label(Text, note), Sift(all, held), Label(Text, blank));
  }

  lemma SameSift(all: bool, a: seq<Labelled>, b: seq<Labelled>)
    requires TextOnly(a) == TextOnly(b) && (all ==> a == b)
    ensures Sift(all, a) == Sift(all, b)
  {
  }

  lemma PutIn(x: seq<Labelled>, note: seq<Labelled>, y: seq<Labelled>, blank: seq<Labelled>)
    ensures |x| <= |x + y|
    ensures blank == [] ==> x + note + y + blank == (x + y)[..|x|] + note + (x + y)[|x|..]
    ensures note == [] ==> x + note + y + blank == (x + y) + blank
  {
    assert (x + y)[..|x|] == x && (x + y)[|x|..] == y;
    assert blank == [] ==> x + note + y + blank == x + note + y;
    assert note == [] ==> x + note == x;
  }

  lemma SiftWhole(all: bool, front: seq<Labelled>, note: string, held: seq<Labelled>, blank: string)
    ensures Sift(all, front + Label(Text, note) + held + Label(Text, blank))
            == Sift(all, front) + Label(Text, note) + Sift(all, held) + Label(Text, blank)
    ensures Label(Text, "") == []
  {
    hide Sift, Label;
    SiftConcat(all, (front + Label(Text, note)) + held, Label(Text, blank));
    SiftConcat(all, front + Label(Text, note), held);
    SiftConcat(all, front, Label(Text, note));
    SiftText(all, note);
    SiftText(all, blank);
    SiftText(all, "");
  }

  lemma NothingHeld(codec: Codec)
    ensures forall n: nat :: CallMarks(codec, [] + PlacedAt(H.Flushed(H.FRESH).1, n)) == []
  {
    hide H.StripControl;
    assert H.Flushed(H.FRESH).1 == [];
  }

  lemma SiftText(all: bool, s: string)
    ensures Sift(all, Label(Text, s)) == Label(Text, s)
    ensures s == "" ==> Label(Text, s) == []
  {
    TextOnlyLabel(Text, s);
  }

  // ---------------------------------------------------------------- reasoning

  /** What is shown for the first chunks stays at the front, and the reasoning of the next comes right after it. */
  lemma {:induction false} ReasoningComesNext(chunks: seq<Chunk>, n: nat)
    requires n < |chunks|
    ensures Shows(Flows(chunks[..n]).items).labels + Label(Thinking, Reasoning(chunks[n])) <= Shows(Flows(chunks).items).labels
    decreases |chunks|
  {
    hide Label, Splits, Join, H.Fed, Flows, Shows;
    var m := |chunks| - 1;
    var init, f := chunks[..m], Flows(chunks[..m]);
    FlowsNext(chunks, m);
    assert chunks[..m + 1] == chunks;
    var thought, more := Thought(Reasoning(chunks[m])), if chunks[m].Delta? then Taken(f.splitter, chunks[m].content).0 else [];
    assert chunks[m].Empty? ==> f.items + thought + more == f.items;
    ShowsThought(f.items, Reasoning(chunks[m]));
    ShowsGrow(f.items + thought, more);
    if n < m {
      ReasoningComesNext(init, n);
      assert init[..n] == chunks[..n];
    }
  }

  lemma ShowsThought(items: seq<ContentChunk>, reasoning: string)
    ensures Shows(items + Thought(reasoning)).labels == Shows(items).labels + Label(Thinking, reasoning)
  {
    hide Label, Shows;
    ShowsNext(items, ContentChunk(Thinking, reasoning));
    assert items + [] == items;
    SiftText(true, "");
    assert reasoning == "" ==> Label(Thinking, reasoning) == [] by { NoLabel(); }
    assert Shows(items).labels + [] == Shows(items).labels;
  }

  lemma NoLabel()
    ensures Label(Thinking, "") == []
  {
  }

  lemma {:induction false} ShowsGrow(items: seq<ContentChunk>, more: seq<ContentChunk>)
    ensures Shows(items).labels <= Shows(items + more).labels
  {
    hide Label, H.Fed, Shows;
    if more == [] {
      assert items + more == items;
    } else {
      var init, last := more[..|more| - 1], more[|more| - 1];
      ShowsGrow(items, init);
      ShowsNext(items + init, last);
      assert items + more == (items + init) + [last];
    }
  }

  /** Whatever the content is: the reasoning of every chunk read is shown as thinking, in its place. */
  lemma ReasoningIsShown(codec: Codec, chunks: seq<Chunk>, body: seq<Event>, native: set<int>, error: Option<string>, noTools: bool, n: nat)
    requires Translated(codec, Flows(chunks), body, native, error, noTools) && n < |chunks|
    ensures Shows(Flows(chunks[..n]).items).labels + Label(Thinking, Reasoning(chunks[n])) <= Content(body)
  {
    ReasoningComesNext(chunks, n);
    hide Label, Shows, Flows, Content, Recovered, CallMarks, HeldLabels, TextOnly, H.Flushed;
  }
}
