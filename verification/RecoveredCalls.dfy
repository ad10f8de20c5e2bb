/** Tool calls written as text, from the chunks of the upstream to the events of the client. */
module RecoveredCalls {
  import opened Strings
  import opened Wrappers
  import opened ThinkParser
  import opened SseTrace
  import opened ToolCalls
  import opened HeuristicParser
  import opened CanonicalCalls
  import opened ParserLaws
  import opened CallChunkings
  import opened Upstream
  import opened Translation

  /** The pieces of text: what the tool parser is fed. */
  function Texts(parts: seq<ContentChunk>): seq<string> {
    if parts == [] then []
    else
      var last := parts[|parts| - 1];
      Texts(parts[..|parts| - 1]) + if last.kind == Text then [last.content] else []
  }

  lemma {:induction false} FeedOneMore(p: Parser, chunks: seq<string>, t: string)
    ensures FeedAll(p, chunks + [t]) ==
            var (q, out) := FeedAll(p, chunks);
            var (r, more) := Fed(q, t);
            (r, out.Then(more))
    decreases |chunks|
  {
    hide Fed;
    if chunks == [] {
      assert (chunks + [t])[1..] == [];
      ThenEmpty(Fed(p, t).1);
    } else {
      assert (chunks + [t])[0] == chunks[0] && (chunks + [t])[1..] == chunks[1..] + [t];
      var (q, out) := Fed(p, chunks[0]);
      FeedOneMore(q, chunks[1..], t);
      var (r, more) := FeedAll(q, chunks[1..]);
      ThenAssoc(out, more, Fed(r, t).1);
    }
  }

  /** A whole control token in a piece of text leaves no trace in what is shown and recovered. */
  lemma TokenLeavesNoTrace(parts: seq<ContentChunk>, a: string, t: string, b: string)
    requires NoControl(Shows(parts).parser.buffer + a + b) && TokenName(t)
    ensures Shows(parts + [ContentChunk(Text, a + Token(t) + b)]) == Shows(parts + [ContentChunk(Text, a + b)])
  {
    hide Fed, Shows, NoControl, Token, TokenName;
    ShowsNext(parts, ContentChunk(Text, a + Token(t) + b));
    ShowsNext(parts, ContentChunk(Text, a + b));
    TokenMakesNoDifference(Shows(parts).parser, a, t, b);
  }

  /** Thinking in between makes no difference to the tool parser. */
  lemma {:induction false} ShowsText(parts: seq<ContentChunk>)
    ensures var (q, out) := FeedAll(FRESH, Texts(parts));
            Shows(parts).parser == q && Uses(Shows(parts).tools) == out.tools && TextOnly(Shows(parts).labels) == Label(Text, out.text)
  {
    hide Fed, Label, FeedAll, TextOnly, Uses, PlacedAt, ShowMore;
    if parts == [] {
      NothingShown();
    } else {
      var init, last := parts[..|parts| - 1], parts[|parts| - 1];
      ShowsText(init);
      assert init + [last] == parts;
      OneMorePart(init, last);
    }
  }

  lemma NothingShown()
    ensures Label(Text, "") == [] && TextOnly([]) == [] && Uses([]) == [] && FeedAll(FRESH, []) == (FRESH, EMPTY)
  {
    SiftText(true, "");
  }

  lemma OneMorePart(init: seq<ContentChunk>, last: ContentChunk)
    requires var (q, out) := FeedAll(FRESH, Texts(init));
             Shows(init).parser == q && Uses(Shows(init).tools) == out.tools && TextOnly(Shows(init).labels) == Label(Text, out.text)
    ensures var (q, out) := FeedAll(FRESH, Texts(init + [last]));
            && Shows(init + [last]).parser == q && Uses(Shows(init + [last]).tools) == out.tools
            && TextOnly(Shows(init + [last]).labels) == Label(Text, out.text)
  {
    hide Fed, Label, Shows, Texts, FeedAll, TextOnly, Uses, PlacedAt;
    ShowsNext(init, last);
    TextsNext(init, last);
    var s := Shows(init);
    if last.kind == Thinking {
      TextOnlyConcat(s.labels, Label(Thinking, last.content));
      TextOnlyLabel(Thinking, last.content);
      UsesConcat(s.tools, [], |s.labels + Label(Thinking, last.content)|);
      assert Uses(s.tools) + [] == Uses(s.tools) && TextOnly(s.labels) + [] == TextOnly(s.labels);
    } else {
      FeedOneMore(FRESH, Texts(init), last.content);
      var out, more := FeedAll(FRESH, Texts(init)).1, Fed(s.parser, last.content).1;
      TextOnlyConcat(s.labels, Label(Text, more.text));
      TextOnlyLabel(Text, more.text);
      UsesConcat(s.tools, more.tools, |s.labels + Label(Text, more.text)|);
      LabelConcat(Text, out.text, more.text);
    }
  }

  lemma TextsNext(init: seq<ContentChunk>, last: ContentChunk)
    ensures Texts(init + [last]) == if last.kind == Text then Texts(init) + [last.content] else Texts(init)
  {
    assert (init + [last])[..|init|] == init;
    assert Texts(init) + [] == Texts(init);
  }

  lemma LabelConcat(kind: ContentType, a: string, b: string)
    ensures Label(kind, a + b) == Label(kind, a) + Label(kind, b)
  {
  }

  lemma LabelInjective(kind: ContentType, a: string, b: string)
    requires Label(kind, a) == Label(kind, b)
    ensures a == b
  {
    assert |Label(kind, a)| == |a| && |Label(kind, b)| == |b|;
    forall i | 0 <= i < |a|
      ensures a[i] == b[i]
    {
      assert Label(kind, a)[i] == Labelled(kind, a[i]) && Label(kind, b)[i] == Labelled(kind, b[i]);
    }
  }

  lemma {:induction false} TextOfPieces(parts: seq<ContentChunk>)
    ensures TextOnly(Labels(parts)) == Label(Text, Join(Texts(parts)))
  {
    hide Label;
    hide Fed, Label, FeedAll, TextOnly, Uses, PlacedAt, ShowMore;
    if parts == [] {
      NothingShown();
    } else {
      var init, last := parts[..|parts| - 1], parts[|parts| - 1];
      TextOfPieces(init);
      TextOnlyConcat(Labels(init), Label(last.kind, last.content));
      TextOnlyLabel(last.kind, last.content);
      if last.kind == Text {
        JoinAppend(Texts(init), last.content);
        LabelConcat(Text, Join(Texts(init)), last.content);
      } else {
        assert Texts(init) + [] == Texts(init);
      }
    }
  }

  lemma {:induction false} ParametersEnd(ps: seq<(string, string)>)
    requires ps != []
    ensures Parameters(ps) != "" && Parameters(ps)[|Parameters(ps)| - 1] == '>'
  {
    if |ps| > 1 {
      ParametersEnd(ps[1..]);
    } else {
      assert Parameters(ps[1..]) == "";
    }
  }

  predicate EndsTag(s: string) {
    s != "" && s[|s| - 1] == '>'
  }

  lemma EndOfBoth(a: string, b: string)
    ensures if b == "" then a + b == a else EndsTag(a + b) == EndsTag(b)
  {
  }

  lemma {:induction false} PrintEnds(calls: seq<Call>)
    requires calls != []
    ensures EndsTag(Print(calls))
  {
    var ps, rest := calls[0].params, Print(calls[1..]);
    assert EndsTag(OpeningTag(calls[0])) && (|calls| == 1 ==> rest == "") && (ps == [] ==> Parameters(ps) == "");
    assert Print(calls) == OpeningTag(calls[0]) + (Parameters(ps) + rest);
    if |calls| > 1 {
      PrintEnds(calls[1..]);
    }
    if ps != [] {
      ParametersEnd(ps);
    }
    hide Print, Parameters, OpeningTag;
    EndOfBoth(Parameters(ps), rest);
    EndOfBoth(OpeningTag(calls[0]), Parameters(ps) + rest);
  }

  /** Text that ends with a whole tag leaves nothing of it behind. */
  lemma NoRest(front: seq<Labelled>, f: Flow, s: string)
    requires s != "" && s[|s| - 1] == '>' && Held(f.splitter)
    requires TextOnly(front + HeldLabels(f)) == Label(Text, s)
    ensures TextOnly(HeldLabels(f)) == [] && TextOnly(front) == Label(Text, s)
  {
    TextOnlyLabel(ThinkParser.Mode(f.splitter.inThink), f.splitter.buffer);
    SiftText(true, "");
    hide TextOnly, Label;
    TextOnlyConcat(front, HeldLabels(f));
    assert TextOnly(front) + [] == TextOnly(front);
    if !f.splitter.inThink {
      LastOfText(TextOnly(front), f.splitter.buffer, s);
    }
  }

  lemma LastOfText(front: seq<Labelled>, b: string, s: string)
    requires front + Label(Text, b) == Label(Text, s) && s != "" && s[|s| - 1] == '>' && (b != "" ==> b[|b| - 1] != '>')
    ensures b == ""
  {
    LastLabel(front, b);
    LastLabel([], s);
    assert [] + Label(Text, s) == Label(Text, s);
  }

  lemma LastLabel(front: seq<Labelled>, b: string)
    ensures var x := front + Label(Text, b); b != "" ==> x != [] && x[|x| - 1].c == b[|b| - 1]
  {
  }

  /** What the tool parser is fed of a stream: the pieces of text, computed from the chunks. */
  function FedTexts(chunks: seq<Chunk>): seq<string> {
    Texts(Flows(chunks).items)
  }

  /** From end to end: if the text of the content, thinking aside, is a lead followed by well-formed
      calls, the client is told exactly of these calls and shown exactly the lead (or a blank for
      none) when the chunks are cut safely. When they are not, it is shown too much, or told of other
      calls; the latter only for keys that end like a closing tag. That is so unless a value under such
      a key holds an opening tag: then the cut may go unnoticed. */
  lemma WrittenCalls(codec: Codec, chunks: seq<Chunk>, body: seq<Event>, native: set<int>, noTools: bool, lead: string, calls: seq<Call>)
    requires Translated(codec, Flows(chunks), body, native, None, noTools)
    requires TextOnly(Parse(false, Contents(chunks))) == Label(Text, lead + Print(calls)) && calls != []
    requires HasNoBullet(lead) && GoodCalls(calls) && NoControl(lead + Print(calls))
    ensures Join(FedTexts(chunks)) == lead + Print(calls)
    ensures Recovered(body, native) == CallMarks(codec, FoundAt(chunks)) && Uses(FoundAt(chunks)) == Found(chunks)
    ensures ToldInFull(codec, FoundAt(chunks), Recovered(body, native))
    ensures SafeChunking(calls, "", FedTexts(chunks)) ==>
              Found(chunks) == Meaning(calls) && TextOnly(Content(body)) == Label(Text, if lead == "" && noTools then " " else lead)
    ensures !SafeChunking(calls, "", FedTexts(chunks)) && StrictCalls(calls) ==> ShownTooMuch(body, lead, noTools)
    ensures !SafeChunking(calls, "", FedTexts(chunks)) && PlainCalls(calls) ==> ShownTooMuch(body, lead, noTools) || Found(chunks) != Meaning(calls)
  {
    var f := Flows(chunks);
    FlowIsParse(chunks);
    FlowItems(chunks);
    MarksTell(codec, FoundAt(chunks));
    hide ToldInFull, GoodCall, Print, NoControl, Meaning, SafeChunking, Parse, Content, Recovered, Label, Join, Texts, Shows, Labels, CallMarks, Fed, Flushed, TextOnly, Flows, Contents, HeldLabels, Held, StrictCalls, PlainCalls, ParseAll, Longer, ShownTooMuch, PlacedAt, Uses;
    var s, held := Shows(f.items), HeldLabels(f);
    LeadThenCalls(lead, calls);
    NoRest(Labels(f.pieces), f, lead + Print(calls));
    TextOfPieces(f.items);
    LabelInjective(Text, Join(Texts(f.items)), lead + Print(calls));
    TellsOf(lead, calls, f.items);
    NoBlank();
    ShownText(s.labels, held, if TextOnly(s.labels) == [] && noTools then " " else "");
    LeadOrBlank(lead, noTools);
    UsesConcat(s.tools, Flushed(s.parser).1, |s.labels + [] + held|);
    assert s.labels + [] == s.labels;
    var told := ParseAll(FRESH, Texts(f.items)).text;
    if Longer(told, lead) {
      TooMuch(body, told, lead, noTools);
    }
  }

  /** More text is shown than the lead, and not just the blank. */
  ghost predicate ShownTooMuch(body: seq<Event>, lead: string, noTools: bool) {
    && |TextOnly(Content(body))| > |lead|
    && TextOnly(Content(body)) != Label(Text, if lead == "" && noTools then " " else lead)
  }

  lemma TooMuch(body: seq<Event>, told: string, lead: string, noTools: bool)
    requires Longer(told, lead)
    requires TextOnly(Content(body)) == Label(Text, told) + Label(Text, if Label(Text, told) == [] && noTools then " " else "")
    ensures ShownTooMuch(body, lead, noTools)
  {
    hide TextOnly, Content;
    assert |Label(Text, told)| == |told| && Label(Text, told) + Label(Text, "") == Label(Text, told);
    var expected := if lead == "" && noTools then " " else lead;
    assert lead == "" ==> lead + " " == " ";
    if Label(Text, told) == Label(Text, expected) {
      LabelInjective(Text, told, expected);
    }
  }

  /** The calls the tool parser finds in a stream that ends well, each behind what is shown before it. */
  function FoundAt(chunks: seq<Chunk>): seq<Placed> {
    CallsFound(Flows(chunks), None)
  }

  function Found(chunks: seq<Chunk>): seq<ToolUse> {
    var s := Shows(Flows(chunks).items);
    Uses(s.tools) + Flushed(s.parser).1
  }

  lemma NoBlank()
    ensures Label(Text, "") == [] && TextOnly([]) == []
  {
  }

  lemma LeadOrBlank(lead: string, noTools: bool)
    ensures Label(Text, lead) == [] <==> lead == ""
    ensures Label(Text, lead) + Label(Text, if lead == "" && noTools then " " else "") == Label(Text, if lead == "" && noTools then " " else lead)
  {
  }

  /** A single call whose tag keeps to the limit always arrives, unless a key ends like a closing tag. */
  lemma OneWrittenCall(codec: Codec, chunks: seq<Chunk>, body: seq<Event>, native: set<int>, noTools: bool, lead: string, c: Call)
    requires Translated(codec, Flows(chunks), body, native, None, noTools)
    requires TextOnly(Parse(false, Contents(chunks))) == Label(Text, lead + Print([c])) && |OpeningTag(c)| <= MAX_TAG + 1
    requires HasNoBullet(lead) && GoodCall(c) && StrictCalls([c]) && NoControl(lead + Print([c]))
    ensures ToldInFull(codec, FoundAt(chunks), Recovered(body, native))
    ensures Uses(FoundAt(chunks)) == [ToolUse(c.name, Collect(map[], c.params))]
    ensures TextOnly(Content(body)) == Label(Text, if lead == "" && noTools then " " else lead)
  {
    hide ToldInFull, Translated, Print, NoControl, GoodCall, OpeningTag, SafeChunking, CallMarks, Content, Recovered, FedTexts, Found, FoundAt, StrictCalls, PlainCalls;
    OnlyMeaning(c);
    WrittenCalls(codec, chunks, body, native, noTools, lead, [c]);
    assert "" + Join(FedTexts(chunks)) == Join(FedTexts(chunks));
    OneBulletChunking(lead, [c], "", FedTexts(chunks));
  }

  lemma OnlyMeaning(c: Call)
    ensures Meaning([c]) == [ToolUse(c.name, Collect(map[], c.params))]
  {
    assert [c][1..] == [];
  }

  lemma LeadThenCalls(lead: string, calls: seq<Call>)
    requires calls != []
    ensures lead + Print(calls) != "" && (lead + Print(calls))[|lead + Print(calls)| - 1] == '>'
  {
    PrintEnds(calls);
    EndOfBoth(lead, Print(calls));
  }

  /** What the tool parser makes of the pieces. */
  lemma TellsOf(lead: string, calls: seq<Call>, parts: seq<ContentChunk>)
    requires Join(Texts(parts)) == lead + Print(calls)
    requires HasNoBullet(lead) && GoodCalls(calls) && NoControl(lead + Print(calls))
    ensures var s := Shows(parts);
            var safe, found := SafeChunking(calls, "", Texts(parts)), Uses(s.tools) + Flushed(s.parser).1;
            && (safe ==> found == Meaning(calls) && TextOnly(s.labels) == Label(Text, lead))
            && var told := ParseAll(FRESH, Texts(parts)).text;
               && TextOnly(s.labels) == Label(Text, told)
               && (!safe && StrictCalls(calls) ==> Longer(told, lead))
               && (!safe && PlainCalls(calls) ==> Longer(told, lead) || found != Meaning(calls))
  {
    var chunks := Texts(parts);
    ShowsText(parts);
    StartReads(lead, calls, chunks);
    hide GoodCall, Print, NoControl, Meaning, SafeChunking, Join, Texts, Shows, ParseAll, FeedAll, Flushed, Follows, Waits, Linked, StrictCalls, PlainCalls, Label, TextOnly, Longer;
    FeedAllReads(calls, FRESH, InText(lead, calls), "", chunks);
  }

  lemma StartReads(lead: string, calls: seq<Call>, chunks: seq<string>)
    requires Join(chunks) == lead + Print(calls) && HasNoBullet(lead) && GoodCalls(calls) && NoControl(lead + Print(calls))
    ensures Waits(FRESH, InText(lead, calls), Join(chunks)) && Linked("", FRESH, InText(lead, calls))
    ensures NoControl(FRESH.buffer + Join(chunks)) && Follows(AtCall(calls), InText(lead, calls), |Join(chunks)|)
    ensures var (q, out) := FeedAll(FRESH, chunks);
            ParseAll(FRESH, chunks) == Output(out.text, out.tools + Flushed(q).1)
    ensures Due(InText(lead, calls)) == Output(lead, Meaning(calls))
  {
    hide GoodCalls, Print, NoControl, Meaning, Join, Follows, ParseAll, FeedAll;
    StartFollows(lead, calls, |Join(chunks)|);
    AllOf(chunks);
    assert FRESH.buffer + Join(chunks) == Join(chunks);
  }

  lemma AllOf(chunks: seq<string>)
    ensures var (q, out) := FeedAll(FRESH, chunks);
            ParseAll(FRESH, chunks) == Output(out.text, out.tools + Flushed(q).1)
  {
    hide FeedAll, Flushed;
    assert FeedAll(FRESH, chunks).1.text + "" == FeedAll(FRESH, chunks).1.text;
  }

  /** With nothing left over, the text is that of the pieces, or a blank. */
  lemma ShownText(labels: seq<Labelled>, held: seq<Labelled>, blank: string)
    requires TextOnly(held) == []
    ensures TextOnly(labels + [] + held + Label(Text, blank)) == TextOnly(labels) + Label(Text, blank)
    ensures Label(Text, "") == []
  {
    SiftText(true, "");
    hide TextOnly, Label;
    TextOnlyConcat(labels + [] + held, Label(Text, blank));
    TextOnlyConcat(labels + [], held);
    TextOnlyLabel(Text, blank);
    assert labels + [] == labels && TextOnly(labels) + [] == TextOnly(labels);
  }
}
