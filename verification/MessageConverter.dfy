/** Assistant turns written out for an OpenAI-compatible provider: the printer that the tag
    splitter undoes. */
module MessageConverter {
  import opened Strings
  import opened Wrappers
  import opened ThinkParser

  datatype Block =
    | TextBlock(text: string)
    | ThinkingBlock(thinking: string)
    | ToolUseBlock(id: string, name: string, arguments: string)
    | OtherBlock

  datatype ToolCall = ToolCall(id: string, name: string, arguments: string)
  datatype AssistantMessage = AssistantMessage(content: string, toolCalls: seq<ToolCall>, reasoning: Option<string>)

  const BREAK := "\n\n"

  /** `sep.join(parts)` */
  function JoinWith(sep: string, parts: seq<string>): string {
    if parts == [] then ""
    else if |parts| == 1 then parts[0]
    else parts[0] + sep + JoinWith(sep, parts[1..])
  }

  lemma {:induction false} JoinedParts(sep: string, a: seq<string>, b: seq<string>)
    requires a != [] && b != []
    ensures JoinWith(sep, a + b) == JoinWith(sep, a) + sep + JoinWith(sep, b)
  {
    assert (a + b)[0] == a[0] && (a + b)[1..] == a[1..] + b;
    if |a| > 1 {
      JoinedParts(sep, a[1..], b);
    } else {
      assert a[1..] + b == b;
    }
  }

  function Wrapped(thinking: string): string {
    "\n" + thinking + "\n"
  }

  // ---------------------------------------------------------------- text and thinking, in order

  /** The blocks that end up in the content. */
  datatype Piece = Said(text: string) | Thought(text: string)

  function Pieces(blocks: seq<Block>): seq<Piece> {
    if blocks == [] then []
    else
      Pieces(blocks[..|blocks| - 1]) +
      match blocks[|blocks| - 1]
      case TextBlock(text) => [Said(text)]
      case ThinkingBlock(thinking) => [Thought(thinking)]
      case _ => []
  }

  function Thoughts(ps: seq<Piece>): seq<string> {
    if ps == [] then []
    else Thoughts(ps[..|ps| - 1]) + (if ps[|ps| - 1].Thought? then [ps[|ps| - 1].text] else [])
  }

  function ToolCalls(blocks: seq<Block>): seq<ToolCall> {
    if blocks == [] then []
    else
      var last := blocks[|blocks| - 1];
      ToolCalls(blocks[..|blocks| - 1]) +
      (if last.ToolUseBlock? then [ToolCall(last.id, last.name, last.arguments)] else [])
  }

  function Printed(p: Piece): string {
    match p
    case Said(text) => text
    case Thought(text) => OPEN + Wrapped(text) + CLOSE
  }

  function PrintedAll(ps: seq<Piece>): seq<string> {
    seq(|ps|, i requires 0 <= i < |ps| => Printed(ps[i]))
  }

  function PrintAll(ps: seq<Piece>): string {
    JoinWith(BREAK, PrintedAll(ps))
  }

  /** Blocks in order, and never an empty content without tool calls. */
  method ConvertAssistantMessage(content: seq<Block>, includeReasoning: bool) returns (msg: AssistantMessage)
    ensures msg.toolCalls == ToolCalls(content)
    ensures var thoughts := Thoughts(Pieces(content));
            msg.reasoning == if includeReasoning && thoughts != [] then Some(JoinWith("\n", thoughts)) else None
    ensures var printed := PrintAll(Pieces(content));
            msg.content == if printed == "" && ToolCalls(content) == [] then " " else printed
  {
    hide Pieces, ToolCalls, Thoughts, PrintedAll, Printed, JoinWith;
    var contentParts, thinkingParts, toolCalls := [], [], [];
    NoBlocks(content);
    for n := 0 to |content|
      invariant contentParts == PrintedAll(Pieces(content[..n])) && toolCalls == ToolCalls(content[..n])
      invariant thinkingParts == if includeReasoning then Thoughts(Pieces(content[..n])) else []
    {
      BlocksNext(content, n);
      match content[n]
      case TextBlock(text) =>
        contentParts := contentParts + [text];
      case ThinkingBlock(thinking) =>
        contentParts := contentParts + ["<think>" + "\n" + thinking + "\n" + "</think>"];
        if includeReasoning {
          thinkingParts := thinkingParts + [thinking];
        }
      case ToolUseBlock(id, name, arguments) =>
        toolCalls := toolCalls + [ToolCall(id, name, arguments)];
      case OtherBlock =>
    }
    assert content[..|content|] == content;
    var contentStr := JoinWith("\n\n", contentParts);
    if contentStr == "" && toolCalls == [] {
      contentStr := " ";
    }
    msg := AssistantMessage(contentStr, toolCalls,
                            if includeReasoning && thinkingParts != [] then Some(JoinWith("\n", thinkingParts)) else None);
  }

  lemma NoBlocks(content: seq<Block>)
    ensures PrintedAll(Pieces(content[..0])) == [] && ToolCalls(content[..0]) == [] && Thoughts(Pieces(content[..0])) == []
  {
  }

  lemma BlocksNext(content: seq<Block>, n: nat)
    requires n < |content|
    ensures var before, after := Pieces(content[..n]), Pieces(content[..n + 1]);
            match content[n]
            case TextBlock(text) => PrintedAll(after) == PrintedAll(before) + [text] && Thoughts(after) == Thoughts(before)
            case ThinkingBlock(thinking) =>
              && PrintedAll(after) == PrintedAll(before) + ["<think>" + "\n" + thinking + "\n" + "</think>"]
              && Thoughts(after) == Thoughts(before) + [thinking]
            case _ => after == before
    ensures ToolCalls(content[..n + 1]) == ToolCalls(content[..n])
              + if content[n].ToolUseBlock? then [ToolCall(content[n].id, content[n].name, content[n].arguments)] else []
  {
    hide Thoughts, PrintedAll;
    assert content[..n + 1][..n] == content[..n];
    var before := Pieces(content[..n]);
    match content[n]
    case TextBlock(text) =>
      PieceAppend(before, Said(text));
    case ThinkingBlock(thinking) =>
      assert "<think>" + "\n" + thinking + "\n" + "</think>" == Printed(Thought(thinking));
      PieceAppend(before, Thought(thinking));
    case _ =>
  }

  lemma PieceAppend(ps: seq<Piece>, p: Piece)
    ensures PrintedAll(ps + [p]) == PrintedAll(ps) + [Printed(p)]
    ensures Thoughts(ps + [p]) == Thoughts(ps) + (if p.Thought? then [p.text] else [])
  {
    assert (ps + [p])[..|ps|] == ps;
  }

  lemma PrintAllUnfold(ps: seq<Piece>)
    ensures ps == [] ==> PrintAll(ps) == ""
    ensures |ps| == 1 ==> PrintAll(ps) == Printed(ps[0])
    ensures |ps| > 1 ==> PrintAll(ps) == Printed(ps[0]) + (BREAK + PrintAll(ps[1..]))
  {
    if |ps| > 1 {
      assert PrintedAll(ps)[1..] == PrintedAll(ps[1..]);
    }
  }

  // ---------------------------------------------------------------- what the printed content means

  /** Text may not contain a tag, thinking may not contain the closing tag. */
  predicate Printable(p: Piece) {
    match p
    case Said(text) => !Contains(text, OPEN) && !Contains(text, CLOSE)
    case Thought(text) => !Contains(text, CLOSE)
  }

  predicate AllPrintable(ps: seq<Piece>) {
    forall i :: 0 <= i < |ps| ==> Printable(ps[i])
  }

  function Marks(p: Piece): seq<Labelled> {
    match p
    case Said(text) => Label(Text, text)
    case Thought(text) => Label(Thinking, Wrapped(text))
  }

  /** The labels the reader should find: the blocks in order, with text breaks between them. */
  function MarkAll(ps: seq<Piece>): seq<Labelled> {
    if ps == [] then []
    else if |ps| == 1 then Marks(ps[0])
    else Marks(ps[0]) + (Label(Text, BREAK) + MarkAll(ps[1..]))
  }

  /** No tag has a line break in it. */
  lemma LineBreakBlocks(s: string, tag: string, i: int, k: int)
    requires tag == OPEN || tag == CLOSE
    requires i <= k < i + |tag| && 0 <= k < |s| && s[k] == '\n'
    ensures !At(s, tag, i)
  {
    assert 0 <= i && i + |tag| <= |s| ==> s[i..i + |tag|][k - i] == s[k];
    assert tag[k - i] != '\n';
  }

  predicate StartsNewLine(s: string) {
    s == "" || s[0] == '\n'
  }

  /** A tag has no line break, so it cannot reach over one. */
  lemma NoTagOverLine(a: string, b: string, tag: string, i: int)
    requires tag == OPEN || tag == CLOSE
    requires StartsNewLine(b) && !Contains(a, tag) && i < |a|
    ensures !At(a + b, tag, i)
  {
    if i + |tag| <= |a| {
      if 0 <= i {
        AtPrefix(a, b, tag, i);
      }
    } else if b != "" {
      LineBreakBlocks(a + b, tag, i, |a|);
    }
  }

  lemma ParseSaid(text: string, rest: string)
    requires Printable(Said(text)) && StartsNewLine(rest)
    ensures Parse(false, text + rest) == Label(Text, text) + Parse(false, rest)
  {
    hide Parse;
    forall i | 0 <= i < |text|
      ensures !TagAt(false, text + rest, i)
    {
      NoTagOverLine(text, rest, OPEN, i);
      NoTagOverLine(text, rest, CLOSE, i);
    }
    ParseSkip(false, text + rest, |text|);
    assert (text + rest)[..|text|] == text && (text + rest)[|text|..] == rest;
  }

  lemma ParseThought(text: string, rest: string)
    requires Printable(Thought(text))
    ensures Parse(false, Printed(Thought(text)) + rest) == Label(Thinking, Wrapped(text)) + Parse(false, rest)
  {
    hide Parse;
    var inside := Wrapped(text);
    var body := inside + (CLOSE + rest);
    assert Printed(Thought(text)) + rest == OPEN + body;
    assert (OPEN + body)[0..7] == OPEN && (OPEN + body)[7..] == body;
    ParseAtTag(false, OPEN + body);
    forall i | 0 <= i < |inside|
      ensures !TagAt(true, body, i)
    {
      NoCloseInside(text, rest, i);
    }
    ParseSkip(true, body, |inside|);
    assert body[..|inside|] == inside && body[|inside|..] == CLOSE + rest;
    assert (CLOSE + rest)[0..8] == CLOSE && (CLOSE + rest)[8..] == rest;
    ParseAtTag(true, CLOSE + rest);
  }

  lemma NoCloseInside(text: string, rest: string, i: nat)
    requires !Contains(text, CLOSE) && i < |Wrapped(text)|
    ensures !At(Wrapped(text) + (CLOSE + rest), CLOSE, i)
  {
    var after := "\n" + (CLOSE + rest);
    var body := "\n" + (text + after);
    assert Wrapped(text) + (CLOSE + rest) == body;
    if i == 0 {
      LineBreakBlocks(body, CLOSE, 0, 0);
    } else {
      AtSuffix("\n", text + after, CLOSE, i);
      if i - 1 < |text| {
        NoTagOverLine(text, after, CLOSE, i - 1);
      } else {
        LineBreakBlocks(body, CLOSE, i, |text| + 1);
      }
    }
  }

  lemma ParseOne(p: Piece, rest: string)
    requires Printable(p) && StartsNewLine(rest)
    ensures Parse(false, Printed(p) + rest) == Marks(p) + Parse(false, rest)
  {
    hide Parse;
    match p
    case Said(text) => ParseSaid(text, rest);
    case Thought(text) => ParseThought(text, rest);
  }

  /** Splitting the printed content gives back the blocks, label by label. */
  lemma {:induction false} ParsePrinted(ps: seq<Piece>)
    requires AllPrintable(ps)
    ensures Parse(false, PrintAll(ps)) == MarkAll(ps)
  {
    hide PrintAll;
    PrintAllUnfold(ps);
    hide Parse, Printable, Printed, Marks, Label;
    if |ps| == 1 {
      ParseOne(ps[0], "");
      assert Printed(ps[0]) + "" == Printed(ps[0]);
      ParseEmpty();
      assert Marks(ps[0]) + [] == Marks(ps[0]);
    } else if |ps| > 1 {
      var more := PrintAll(ps[1..]);
      ParseOne(ps[0], BREAK + more);
      ParsePrinted(ps[1..]);
      ParseBreak(more);
    } else {
      ParseEmpty();
    }
  }

  lemma ParseEmpty()
    ensures Parse(false, "") == []
  {
  }

  lemma ParseBreak(rest: string)
    ensures Parse(false, BREAK + rest) == Label(Text, BREAK) + Parse(false, rest)
  {
    hide Parse;
    var s := BREAK + rest;
    forall i | 0 <= i < 2
      ensures !TagAt(false, s, i)
    {
      LineBreakBlocks(s, OPEN, i, i);
      LineBreakBlocks(s, CLOSE, i, i);
    }
    ParseSkip(false, s, 2);
    assert s[..2] == BREAK && s[2..] == rest;
  }

  // ---------------------------------------------------------------- reading the blocks back

  /** Neighbouring characters of one kind, grouped. */
  function Runs(x: seq<Labelled>): seq<ContentChunk> {
    if x == [] then []
    else
      var rest := Runs(x[1..]);
      if rest != [] && rest[0].kind == x[0].kind
      then [ContentChunk(x[0].kind, [x[0].c] + rest[0].content)] + rest[1..]
      else [ContentChunk(x[0].kind, [x[0].c])] + rest
  }

  function ThinkingRuns(runs: seq<ContentChunk>): seq<string> {
    if runs == [] then []
    else (if runs[0].kind == Thinking then [runs[0].content] else []) + ThinkingRuns(runs[1..])
  }

  function TextOf(x: seq<Labelled>): string {
    if x == [] then "" else (if x[0].kind == Text then [x[0].c] else "") + TextOf(x[1..])
  }

  lemma LabelStep(kind: ContentType, s: string, y: seq<Labelled>)
    requires s != ""
    ensures var x := Label(kind, s) + y; x != [] && x[0] == Labelled(kind, s[0]) && x[1..] == Label(kind, s[1..]) + y
  {
  }

  lemma {:induction false} RunsFront(x: seq<Labelled>)
    ensures x == [] <==> Runs(x) == []
    ensures x != [] ==> Runs(x)[0].kind == x[0].kind
  {
    if x != [] {
      RunsFront(x[1..]);
    }
  }

  /** A thinking block followed by something else is a run of its own. */
  lemma {:induction false} ThinkingRun(s: string, y: seq<Labelled>)
    requires s != "" && (y != [] ==> y[0].kind == Text)
    ensures Runs(Label(Thinking, s) + y) == [ContentChunk(Thinking, s)] + Runs(y)
    decreases |s|
  {
    LabelStep(Thinking, s, y);
    RunsFront(y);
    if |s| == 1 {
      assert Label(Thinking, s[1..]) + y == y && [s[0]] == s;
    } else {
      ThinkingRun(s[1..], y);
      assert s == [s[0]] + s[1..];
    }
  }

  /** Text in front changes no thinking run. */
  lemma {:induction false} TextInFront(s: string, y: seq<Labelled>)
    ensures ThinkingRuns(Runs(Label(Text, s) + y)) == ThinkingRuns(Runs(y))
    decreases |s|
  {
    if s == "" {
      assert Label(Text, s) + y == y;
    } else {
      LabelStep(Text, s, y);
      TextInFront(s[1..], y);
    }
  }

  lemma TextOfStep(x: seq<Labelled>)
    requires x != []
    ensures TextOf(x) == (if x[0].kind == Text then [x[0].c] else "") + TextOf(x[1..])
  {
  }

  lemma FirstOf(s: string, rest: string)
    requires s != ""
    ensures s + rest == [s[0]] + (s[1..] + rest) && "" + ("" + rest) == "" + rest
  {
    assert s == [s[0]] + s[1..];
  }

  lemma NoLabel(kind: ContentType, y: seq<Labelled>)
    ensures Label(kind, "") + y == y
  {
  }

  lemma {:induction false} TextOfLabel(kind: ContentType, s: string, y: seq<Labelled>)
    ensures TextOf(Label(kind, s) + y) == (if kind == Text then s else "") + TextOf(y)
    decreases |s|
  {
    hide Label, TextOf;
    if s == "" {
      NoLabel(kind, y);
      assert "" + TextOf(y) == TextOf(y);
    } else {
      LabelStep(kind, s, y);
      TextOfStep(Label(kind, s) + y);
      TextOfLabel(kind, s[1..], y);
      FirstOf(s, TextOf(y));
    }
  }

  function Spoken(ps: seq<Piece>): seq<string> {
    seq(|ps|, i requires 0 <= i < |ps| => if ps[i].Said? then ps[i].text else "")
  }

  function WrappedThoughts(ps: seq<Piece>): seq<string> {
    if ps == [] then []
    else (if ps[0].Thought? then [Wrapped(ps[0].text)] else []) + WrappedThoughts(ps[1..])
  }

  /** One piece, followed by nothing or by text. */
  lemma PieceReadBack(p: Piece, tail: seq<Labelled>)
    requires tail != [] ==> tail[0].kind == Text
    ensures ThinkingRuns(Runs(Marks(p) + tail)) == (if p.Thought? then [Wrapped(p.text)] else []) + ThinkingRuns(Runs(tail))
    ensures TextOf(Marks(p) + tail) == (if p.Said? then p.text else "") + TextOf(tail)
  {
    match p
    case Said(text) =>
      TextInFront(text, tail);
      TextOfLabel(Text, text, tail);
      assert [] + ThinkingRuns(Runs(tail)) == ThinkingRuns(Runs(tail));
    case Thought(text) =>
      ThinkingRun(Wrapped(text), tail);
      TextOfLabel(Thinking, Wrapped(text), tail);
      assert ([ContentChunk(Thinking, Wrapped(text))] + Runs(tail))[1..] == Runs(tail);
  }

  lemma BreakReadBack(y: seq<Labelled>)
    ensures var tail := Label(Text, BREAK) + y;
            && tail != [] && tail[0].kind == Text
            && ThinkingRuns(Runs(tail)) == ThinkingRuns(Runs(y)) && TextOf(tail) == BREAK + TextOf(y)
  {
    TextInFront(BREAK, y);
    TextOfLabel(Text, BREAK, y);
  }

  lemma {:induction false} MarksReadBack(ps: seq<Piece>)
    ensures ThinkingRuns(Runs(MarkAll(ps))) == WrappedThoughts(ps)
    ensures TextOf(MarkAll(ps)) == JoinWith(BREAK, Spoken(ps))
  {
    hide Runs, TextOf, Marks, Label, ThinkingRuns;
    NothingReadBack();
    if ps != [] {
      var p, tail := ps[0], if |ps| == 1 then [] else Label(Text, BREAK) + MarkAll(ps[1..]);
      if |ps| > 1 {
        MarksReadBack(ps[1..]);
        BreakReadBack(MarkAll(ps[1..]));
      } else {
        assert Marks(p) + [] == Marks(p) && WrappedThoughts(ps[1..]) == [];
      }
      PieceReadBack(p, tail);
      assert Spoken(ps) == [if p.Said? then p.text else ""] + Spoken(ps[1..]);
    }
  }

  lemma NothingReadBack()
    ensures ThinkingRuns(Runs([])) == [] && TextOf([]) == ""
  {
  }

  function Unwrap(s: string): string {
    if |s| >= 2 && s[0] == '\n' && s[|s| - 1] == '\n' then s[1..|s| - 1] else s
  }

  function UnwrapAll(xs: seq<string>): seq<string> {
    seq(|xs|, i requires 0 <= i < |xs| => Unwrap(xs[i]))
  }

  /** The round trip: printing the blocks of a turn and splitting the content gives back every
      thinking block, less one line break on either side, and all text with its breaks. */
  lemma PrintParseRoundTrip(blocks: seq<Block>)
    requires AllPrintable(Pieces(blocks))
    ensures var ps, parsed := Pieces(blocks), Parse(false, PrintAll(Pieces(blocks)));
            && UnwrapAll(ThinkingRuns(Runs(parsed))) == Thoughts(ps)
            && TextOf(parsed) == JoinWith(BREAK, Spoken(ps))
  {
    var ps := Pieces(blocks);
    ParsePrinted(ps);
    MarksReadBack(ps);
    UnwrapThoughts(ps);
  }

  /** From end to end: a turn is converted, its content is sent in any chunks, and the reader splits it.
      All thinking blocks come back one by one, and so does all text, or the blank of an empty turn. */
  method ConvertAndSplit(blocks: seq<Block>, includeReasoning: bool, pieces: seq<string>) returns (msg: AssistantMessage, chunks: seq<ContentChunk>)
    requires AllPrintable(Pieces(blocks))
    ensures msg.toolCalls == ToolCalls(blocks)
    ensures Join(pieces) == msg.content ==>
              var ps := Pieces(blocks);
              && UnwrapAll(ThinkingRuns(Runs(Labels(chunks)))) == Thoughts(ps)
              && TextOf(Labels(chunks)) == if PrintAll(ps) == "" && msg.toolCalls == [] then " " else JoinWith(BREAK, Spoken(ps))
  {
    msg := ConvertAssistantMessage(blocks, includeReasoning);
    chunks := ParseChunks(pieces);
    PrintParseRoundTrip(blocks);
    BlankReadBack();
    hide Parse, Runs, ThinkingRuns, TextOf, UnwrapAll, PrintAll, Labels;
    if PrintAll(Pieces(blocks)) == "" {
      ParseEmpty();
      NothingReadBack();
    }
  }

  lemma BlankReadBack()
    ensures var parsed := Parse(false, " "); ThinkingRuns(Runs(parsed)) == [] && TextOf(parsed) == " "
    ensures UnwrapAll([]) == []
  {
    assert Parse(false, " ") == [Labelled(Text, ' ')] + Parse(false, ""[..]);
  }

  lemma {:induction false} UnwrapThoughts(ps: seq<Piece>)
    ensures UnwrapAll(WrappedThoughts(ps)) == Thoughts(ps)
  {
    if ps != [] {
      var p, rest := ps[0], ps[1..];
      UnwrapThoughts(rest);
      ThoughtsFront(ps);
      if p.Thought? {
        var w := Wrapped(p.text);
        assert w[1..|w| - 1] == p.text;
        assert UnwrapAll([w] + WrappedThoughts(rest)) == [p.text] + UnwrapAll(WrappedThoughts(rest));
      } else {
        assert [] + WrappedThoughts(rest) == WrappedThoughts(rest);
      }
    }
  }

  lemma {:induction false} ThoughtsFront(ps: seq<Piece>)
    requires ps != []
    ensures Thoughts(ps) == (if ps[0].Thought? then [ps[0].text] else []) + Thoughts(ps[1..])
  {
    if |ps| > 1 {
      ThoughtsFront(ps[..|ps| - 1]);
      assert ps[..|ps| - 1][1..] == ps[1..][..|ps| - 2];
    }
  }
}
