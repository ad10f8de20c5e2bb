/** The incremental splitter for `<think>...</think>` tags. */
module ThinkParser {
  import opened Strings
  import opened Wrappers

  datatype ContentType = Text | Thinking
  datatype ContentChunk = ContentChunk(kind: ContentType, content: string)
  datatype Labelled = Labelled(kind: ContentType, c: char)

  const OPEN := "<think>"
  const CLOSE := "</think>"

  // ---------------------------------------------------------------- one-shot specification

  /** What the tags mean: a tag at the front is dropped and switches the mode (an orphan closing
      tag is just dropped), any other character carries the label of the current mode. */
  function Parse(inThink: bool, s: string): seq<Labelled>
    decreases |s|
  {
    if s == "" then []
    else if CLOSE <= s then Parse(false, s[8..])
    else if !inThink && OPEN <= s then Parse(true, s[7..])
    else [Labelled(Mode(inThink), s[0])] + Parse(inThink, s[1..])
  }

  function Mode(inThink: bool): ContentType {
    if inThink then Thinking else Text
  }

  function Label(kind: ContentType, s: string): seq<Labelled> {
    seq(|s|, i requires 0 <= i < |s| => Labelled(kind, s[i]))
  }

  function Labels(chunks: seq<ContentChunk>): seq<Labelled> {
    if chunks == [] then []
    else Labels(chunks[..|chunks| - 1]) + Label(chunks[|chunks| - 1].kind, chunks[|chunks| - 1].content)
  }

  lemma LabelsAppend(chunks: seq<ContentChunk>, c: ContentChunk)
    ensures Labels(chunks + [c]) == Labels(chunks) + Label(c.kind, c.content)
  {
    assert (chunks + [c])[..|chunks|] == chunks;
  }

  /** A tag that the given mode reacts to starts at position i. */
  predicate TagAt(inThink: bool, s: string, i: int) {
    At(s, CLOSE, i) || (!inThink && At(s, OPEN, i))
  }

  /** p is a non-empty proper prefix of a tag that the given mode reacts to. */
  predicate Partial(inThink: bool, p: string) {
    p != "" && ((|p| < 8 && p <= CLOSE) || (!inThink && |p| < 7 && p <= OPEN))
  }

  lemma ParseStep(inThink: bool, s: string)
    requires s != "" && !TagAt(inThink, s, 0)
    ensures Parse(inThink, s) == [Labelled(Mode(inThink), s[0])] + Parse(inThink, s[1..])
  {
  }

  lemma ParseAtTag(inThink: bool, s: string)
    ensures At(s, CLOSE, 0) ==> Parse(inThink, s) == Parse(false, s[8..])
    ensures !inThink && At(s, OPEN, 0) ==> Parse(inThink, s) == Parse(true, s[7..])
  {
    assert At(s, CLOSE, 0) ==> CLOSE <= s && s[0..8][1] == s[1] == '/';
    assert At(s, OPEN, 0) ==> OPEN <= s && s[0..7][1] == s[1] == 't';
  }

  /** Text in which no tag starts is labelled as it stands. */
  lemma {:induction false} ParseSkip(inThink: bool, s: string, k: nat)
    requires k <= |s|
    requires forall i :: 0 <= i < k ==> !TagAt(inThink, s, i)
    ensures Parse(inThink, s) == Label(Mode(inThink), s[..k]) + Parse(inThink, s[k..])
  {
    hide Parse;
    if k == 0 {
      assert s[..0] == "" && s[0..] == s;
    } else {
      var t := s[1..];
      assert s == s[..1] + t;
      forall i | 0 <= i < k - 1
        ensures !TagAt(inThink, t, i)
      {
        assert !TagAt(inThink, s, i + 1);
        AtSuffix(s[..1], t, CLOSE, i + 1);
        AtSuffix(s[..1], t, OPEN, i + 1);
      }
      assert !TagAt(inThink, s, 0);
      ParseStep(inThink, s);
      ParseSkip(inThink, t, k - 1);
      assert t[k - 1..] == s[k..];
      assert Label(Mode(inThink), s[..k]) == [Labelled(Mode(inThink), s[0])] + Label(Mode(inThink), t[..k - 1]);
    }
  }

  // ---------------------------------------------------------------- holding back

  /** Having read s in mode m, the labels `out` are settled whatever follows, and what follows is
      read in mode m' after the held-back text b'. */
  ghost predicate Continues(m: bool, s: string, out: seq<Labelled>, m': bool, b': string) {
    forall rest: string {:trigger s + rest} :: Parse(m, s + rest) == out + Parse(m', b' + rest)
  }

  lemma ContinuesTrans(m: bool, s: string, o1: seq<Labelled>, m1: bool, b1: string,
                       t: string, o2: seq<Labelled>, m2: bool, b2: string)
    requires Continues(m, s, o1, m1, b1)
    requires Continues(m1, b1 + t, o2, m2, b2)
    ensures Continues(m, s + t, o1 + o2, m2, b2)
  {
    hide Parse;
    forall rest: string
      ensures Parse(m, (s + t) + rest) == (o1 + o2) + Parse(m2, b2 + rest)
    {
      assert (s + t) + rest == s + (t + rest);
      assert (b1 + t) + rest == b1 + (t + rest);
      assert (o1 + o2) + Parse(m2, b2 + rest) == o1 + (o2 + Parse(m2, b2 + rest));
    }
  }

  /** An unfinished tag: what is there so far is a proper prefix of it. */
  lemma CutOccurrence(buf: string, rest: string, tag: string, i: nat)
    requires i < |buf| && At(buf + rest, tag, i)
    ensures At(buf, tag, i) || (|buf| - i < |tag| && buf[i..] <= tag)
  {
    if i + |tag| <= |buf| {
      AtPrefix(buf, rest, tag, i);
    } else {
      assert buf[i..] == (buf + rest)[i..i + |tag|][..|buf| - i];
    }
  }

  /** No tag can start at i in any extension of buf. */
  lemma NoTagLater(m: bool, buf: string, i: nat, rest: string)
    requires i < |buf| && !TagAt(m, buf, i) && !Partial(m, buf[i..])
    ensures !TagAt(m, buf + rest, i)
  {
    if At(buf + rest, CLOSE, i) {
      CutOccurrence(buf, rest, CLOSE, i);
    }
    if !m && At(buf + rest, OPEN, i) {
      CutOccurrence(buf, rest, OPEN, i);
    }
  }

  lemma BracketAt(buf: string, i: int)
    ensures At(buf, "<", i) <==> 0 <= i < |buf| && buf[i] == '<'
  {
    if 0 <= i < |buf| {
      assert buf[i..i + 1] == [buf[i]];
    }
  }

  /** Only the last '<' of the buffer can begin an unfinished tag. */
  lemma PartialStartsAtLastBracket(m: bool, buf: string, i: nat)
    requires i < |buf| && Partial(m, buf[i..])
    ensures i == RFind(buf, "<")
  {
    BracketAt(buf, i);
    forall r | i < r
      ensures !At(buf, "<", r)
    {
      BracketAt(buf, r);
      if r < |buf| {
        assert buf[r] == buf[i..][r - i];
      }
    }
  }

  /** The first k characters can be emitted, the rest of the buffer is held back. */
  lemma EmitPrefix(m: bool, buf: string, k: nat)
    requires k <= |buf|
    requires forall i :: 0 <= i < k ==> !TagAt(m, buf, i) && !Partial(m, buf[i..])
    ensures Continues(m, buf, Label(Mode(m), buf[..k]), m, buf[k..])
  {
    forall rest: string
      ensures Parse(m, buf + rest) == Label(Mode(m), buf[..k]) + Parse(m, buf[k..] + rest)
    {
      forall i | 0 <= i < k
        ensures !TagAt(m, buf + rest, i)
      {
        NoTagLater(m, buf, i, rest);
      }
      ParseSkip(m, buf + rest, k);
      assert (buf + rest)[..k] == buf[..k];
      assert (buf + rest)[k..] == buf[k..] + rest;
    }
  }

  /** Emitting up to a tag at k, consuming it and changing the mode. */
  lemma ConsumeTag(m: bool, buf: string, k: nat, tag: string, m': bool)
    requires (tag == CLOSE && !m') || (tag == OPEN && !m && m')
    requires At(buf, tag, k)
    requires forall i :: 0 <= i < k ==> !TagAt(m, buf, i)
    ensures Continues(m, buf, Label(Mode(m), buf[..k]), m', buf[k + |tag|..])
  {
    hide Parse;
    forall rest: string
      ensures Parse(m, buf + rest) == Label(Mode(m), buf[..k]) + Parse(m', buf[k + |tag|..] + rest)
    {
      var all := buf + rest;
      forall i | 0 <= i < k
        ensures !TagAt(m, all, i)
      {
        NotPartialBeforeTag(m, buf, i, tag, k);
        NoTagLater(m, buf, i, rest);
      }
      ParseSkip(m, all, k);
      assert all[..k] == buf[..k];
      AtPrefix(buf, rest, tag, k);
      assert all[k..][0..|tag|] == all[k..k + |tag|];
      ParseAtTag(m, all[k..]);
      assert all[k..][|tag|..] == buf[k + |tag|..] + rest;
    }
  }

  lemma NotPartialBeforeTag(m: bool, buf: string, i: nat, tag: string, k: nat)
    requires i < k && At(buf, tag, k) && tag != "" && tag[0] == '<'
    ensures !Partial(m, buf[i..])
  {
    BracketAt(buf, k);
    assert buf[k] == buf[k..k + |tag|][0];
    if Partial(m, buf[i..]) {
      PartialStartsAtLastBracket(m, buf, i);
    }
  }

  lemma FlushPartial(m: bool, buf: string)
    requires buf == "" || Partial(m, buf)
    ensures Parse(m, buf) == Label(Mode(m), buf)
  {
    forall i | 0 <= i < |buf|
      ensures !TagAt(m, buf, i)
    {
      NoTagInPartial(m, buf, i);
    }
    ParseSkip(m, buf, |buf|);
    assert buf[..|buf|] == buf && buf[|buf|..] == "";
  }

  lemma NoTagInPartial(m: bool, buf: string, i: nat)
    requires Partial(m, buf) && i < |buf|
    ensures !TagAt(m, buf, i)
  {
    if |buf| == 7 {
      assert buf[1] == '/' && OPEN[1] == 't';
      assert buf[0..7][1] == buf[1];
    }
  }

  // ---------------------------------------------------------------- one pass of the loop

  predicate IsSuffix(x: string, s: string) {
    |x| <= |s| && x == s[|s| - |x|..]
  }

  ghost predicate IsPiece(x: string, s: string) {
    exists i, j :: 0 <= i <= j <= |s| && x == s[i..j]
  }

  function ChunkLabels(chunk: Option<ContentChunk>): seq<Labelled> {
    match chunk
    case None => []
    case Some(c) => Label(c.kind, c.content)
  }

  function NonEmpty(kind: ContentType, s: string): (r: Option<ContentChunk>) {
    if s != "" then Some(ContentChunk(kind, s)) else None
  }

  /** One pass of the feed loop, from mode m and buffer b to mode m' and buffer b'. */
  ghost predicate Pass(m: bool, b: string, chunk: Option<ContentChunk>, m': bool, b': string) {
    && Continues(m, b, ChunkLabels(chunk), m', b')
    && IsSuffix(b', b)
    && (chunk.Some? ==> chunk.value.content != "" && chunk.value.content <= b && |b'| < |b|)
    && (|b'| == |b| ==> Partial(m', b'))
  }

  lemma StartPass(m: bool, s: string)
    ensures Continues(m, s, Labels([]), m, s)
  {
  }

  // ---------------------------------------------------------------- the loop as a function

  datatype Splitter = Splitter(inThink: bool, buffer: string)

  const UNSPLIT := Splitter(false, "")

  /** Between calls the held text is empty or a proper prefix of a tag: at most 7 characters. */
  ghost predicate Held(s: Splitter) {
    s.buffer == "" || Partial(s.inThink, s.buffer)
  }

  function Cut(s: Splitter, k: nat, tag: nat, inThink: bool): (Option<ContentChunk>, Splitter)
    requires k + tag <= |s.buffer|
  {
    (NonEmpty(Mode(s.inThink), s.buffer[..k]), Splitter(inThink, s.buffer[k + tag..]))
  }

  /** How much of a buffer without a tag can be handed out. */
  function Settled(s: Splitter): (k: nat)
    ensures k <= |s.buffer|
  {
    var lastBracket := RFind(s.buffer, "<");
    if lastBracket != -1 && Partial(s.inThink, s.buffer[lastBracket..]) then lastBracket else |s.buffer|
  }

  /** One pass. */
  function Passed(s: Splitter): (Option<ContentChunk>, Splitter) {
    var open, close := Find(s.buffer, OPEN, 0), Find(s.buffer, CLOSE, 0);
    if s.inThink then
      if close == -1 then Cut(s, Settled(s), 0, true) else Cut(s, close, 8, false)
    else if close != -1 && (open == -1 || close < open) then Cut(s, close, 8, false)
    else if open == -1 then Cut(s, Settled(s), 0, false)
    else Cut(s, open, 7, true)
  }

  lemma PassedSettles(s: Splitter)
    ensures var (chunk, t) := Passed(s); s.buffer != "" ==> Pass(s.inThink, s.buffer, chunk, t.inThink, t.buffer)
  {
    hide Parse, Find, RFind;
    var open, close := Find(s.buffer, OPEN, 0), Find(s.buffer, CLOSE, 0);
    if s.inThink {
      if close == -1 {
        HoldBack(s);
      } else {
        ConsumeTag(true, s.buffer, close, CLOSE, false);
      }
    } else if close != -1 && (open == -1 || close < open) {
      ConsumeTag(false, s.buffer, close, CLOSE, false);
    } else if open == -1 {
      HoldBack(s);
    } else {
      ConsumeTag(false, s.buffer, open, OPEN, true);
    }
  }

  lemma HoldBack(s: Splitter)
    requires forall i :: 0 <= i < |s.buffer| ==> !TagAt(s.inThink, s.buffer, i)
    ensures Continues(s.inThink, s.buffer, Label(Mode(s.inThink), s.buffer[..Settled(s)]), s.inThink, s.buffer[Settled(s)..])
  {
    hide Parse, RFind;
    forall i | 0 <= i < Settled(s)
      ensures !Partial(s.inThink, s.buffer[i..])
    {
      if Partial(s.inThink, s.buffer[i..]) {
        PartialStartsAtLastBracket(s.inThink, s.buffer, i);
      }
    }
    EmitPrefix(s.inThink, s.buffer, Settled(s));
  }

  /** Passes until nothing more can be handed out. */
  function Splits(s: Splitter): (seq<ContentChunk>, Splitter)
    decreases |s.buffer|
  {
    if s.buffer == "" then ([], s)
    else
      var (chunk, t) := Passed(s);
      if chunk.Some? then
        var (more, u) := Splits(t);
        ([chunk.value] + more, u)
      else if |t.buffer| == |s.buffer| then ([], t)
      else Splits(t)
  }

  function SplitFed(s: Splitter, content: string): (seq<ContentChunk>, Splitter) {
    Splits(s.(buffer := s.buffer + content))
  }

  /** Splitting settles exactly the labels that no continuation can change. */
  lemma {:induction false} SplitsSettle(s: Splitter)
    ensures var (chunks, t) := Splits(s);
            && Held(t) && Continues(s.inThink, s.buffer, Labels(chunks), t.inThink, t.buffer)
            && IsSuffix(t.buffer, s.buffer)
            && forall c :: c in chunks ==> c.content != "" && IsPiece(c.content, s.buffer)
    decreases |s.buffer|
  {
    hide Parse, Label, Passed, Continues, Partial;
    StartPass(s.inThink, s.buffer);
    if s.buffer != "" {
      PassedSettles(s);
      var (chunk, t) := Passed(s);
      if chunk.Some? || |t.buffer| < |s.buffer| {
        SplitsSettle(t);
        PassThenRest(s, chunk, t, Splits(t).0, Splits(t).1);
      }
    }
  }

  lemma SplitsEnd(s: Splitter)
    ensures s.buffer == "" ==> Splits(s) == ([], s)
  {
  }

  /** One pass of the loop, and the passes after it. */
  lemma SplitsNext(s: Splitter)
    requires s.buffer != ""
    ensures var (chunk, t) := Passed(s);
            && |t.buffer| <= |s.buffer| && (chunk.Some? ==> |t.buffer| < |s.buffer|)
            && Splits(s) == if chunk.Some? then ([chunk.value] + Splits(t).0, Splits(t).1)
                            else if |t.buffer| == |s.buffer| then ([], t) else Splits(t)
  {
    PassedSettles(s);
    hide Passed, Continues, Partial;
  }

  lemma PassThenRest(s: Splitter, chunk: Option<ContentChunk>, t: Splitter, more: seq<ContentChunk>, u: Splitter)
    requires Pass(s.inThink, s.buffer, chunk, t.inThink, t.buffer)
    requires Continues(t.inThink, t.buffer, Labels(more), u.inThink, u.buffer) && IsSuffix(u.buffer, t.buffer)
    requires forall c :: c in more ==> c.content != "" && IsPiece(c.content, t.buffer)
    ensures var chunks := if chunk.Some? then [chunk.value] + more else more;
            && Continues(s.inThink, s.buffer, Labels(chunks), u.inThink, u.buffer) && IsSuffix(u.buffer, s.buffer)
            && forall c :: c in chunks ==> c.content != "" && IsPiece(c.content, s.buffer)
  {
    var chunks := if chunk.Some? then [chunk.value] + more else more;
    OneThenMore(chunk, more);
    hide Parse, Label, Labels;
    assert t.buffer + "" == t.buffer && s.buffer + "" == s.buffer;
    ContinuesTrans(s.inThink, s.buffer, ChunkLabels(chunk), t.inThink, t.buffer, "", Labels(more), u.inThink, u.buffer);
    hide Continues, IsPiece;
    forall c | c in chunks
      ensures c.content != "" && IsPiece(c.content, s.buffer)
    {
      if c in more {
        PieceOfMore(c.content, t.buffer, s.buffer);
      } else {
        PieceOfMore(c.content, c.content, s.buffer);
      }
    }
  }

  lemma PieceOfMore(x: string, b: string, s: string)
    requires (IsPiece(x, b) && IsSuffix(b, s)) || x <= s
    ensures IsPiece(x, s)
  {
    if x <= s {
      assert x == s[0..|x|];
    } else {
      var i, j :| 0 <= i <= j <= |b| && x == b[i..j];
      var skip := |s| - |b|;
      var y := s[skip + i..skip + j];
      forall k | 0 <= k < |x|
        ensures x[k] == y[k]
      {
        assert x[k] == b[i + k] == s[skip..][i + k];
      }
      assert x == y;
    }
  }

  lemma OneThenMore(chunk: Option<ContentChunk>, more: seq<ContentChunk>)
    ensures ChunkLabels(chunk) + Labels(more) == Labels(if chunk.Some? then [chunk.value] + more else more)
  {
    if chunk.Some? {
      LabelsConcat([chunk.value], more);
      assert [chunk.value][..0] == [] && [] + ChunkLabels(chunk) == ChunkLabels(chunk);
    } else {
      assert [] + Labels(more) == Labels(more);
    }
  }

  // ---------------------------------------------------------------- the parser object

  class ThinkTagParser {
    var buffer: string
    var inThinkTag: bool

    function Value(): Splitter
      reads this
    {
      Splitter(inThinkTag, buffer)
    }

    ghost predicate Valid()
      reads this
    {
      Held(Value())
    }

    constructor ()
      ensures Valid() && Value() == UNSPLIT
    {
      buffer, inThinkTag := "", false;
    }

    method ParseOutsideThink() returns (chunk: Option<ContentChunk>)
      requires !inThinkTag && buffer != ""
      modifies this
      ensures Pass(old(inThinkTag), old(buffer), chunk, inThinkTag, buffer)
      ensures (chunk, Value()) == Passed(old(Value()))
    {
      PassedSettles(Value());
      hide Parse, Find, RFind, Pass;
      var thinkStart := Find(buffer, OPEN, 0);
      var orphanClose := Find(buffer, CLOSE, 0);
      if orphanClose != -1 && (thinkStart == -1 || orphanClose < thinkStart) {
        var preOrphan := buffer[..orphanClose];
        buffer := buffer[orphanClose + 8..];
        return NonEmpty(Text, preOrphan);
      }
      if thinkStart == -1 {
        var lastBracket := RFind(buffer, "<");
        if lastBracket != -1 {
          var potentialTag := buffer[lastBracket..];
          if (|potentialTag| < 7 && potentialTag <= OPEN) || (|potentialTag| < 8 && potentialTag <= CLOSE) {
            var emit := buffer[..lastBracket];
            buffer := buffer[lastBracket..];
            return NonEmpty(Text, emit);
          }
        }
        var emit := buffer;
        assert emit[..|emit|] == emit && emit[|emit|..] == "";
        buffer := "";
        return NonEmpty(Text, emit);
      } else {
        var preThink := buffer[..thinkStart];
        buffer := buffer[thinkStart + 7..];
        inThinkTag := true;
        return NonEmpty(Text, preThink);
      }
    }

    method ParseInsideThink() returns (chunk: Option<ContentChunk>)
      requires inThinkTag && buffer != ""
      modifies this
      ensures Pass(old(inThinkTag), old(buffer), chunk, inThinkTag, buffer)
      ensures (chunk, Value()) == Passed(old(Value()))
    {
      PassedSettles(Value());
      hide Parse, Find, RFind, Pass;
      var thinkEnd := Find(buffer, CLOSE, 0);
      if thinkEnd == -1 {
        var lastBracket := RFind(buffer, "<");
        if lastBracket != -1 && |buffer| - lastBracket < 8 {
          var potentialTag := buffer[lastBracket..];
          if potentialTag <= CLOSE {
            var emit := buffer[..lastBracket];
            buffer := buffer[lastBracket..];
            return NonEmpty(Thinking, emit);
          }
        }
        var emit := buffer;
        assert emit[..|emit|] == emit && emit[|emit|..] == "";
        buffer := "";
        return NonEmpty(Thinking, emit);
      } else {
        var thinkingContent := buffer[..thinkEnd];
        buffer := buffer[thinkEnd + 8..];
        inThinkTag := false;
        return NonEmpty(Thinking, thinkingContent);
      }
    }

    /** Feeding settles exactly the labels that no continuation can change. */
    method Feed(content: string) returns (chunks: seq<ContentChunk>)
      modifies this
      ensures Valid()
      ensures Continues(old(inThinkTag), old(buffer) + content, Labels(chunks), inThinkTag, buffer)
      ensures IsSuffix(buffer, old(buffer) + content)
      ensures forall c :: c in chunks ==> c.content != "" && IsPiece(c.content, old(buffer) + content)
      ensures (chunks, Value()) == SplitFed(old(Value()), content)
    {
      SplitsSettle(Splitter(inThinkTag, buffer + content));
      hide Parse, Label, Labels, Continues, Passed, Partial, Pass, Splits, IsPiece, IsSuffix;
      buffer := buffer + content;
      ghost var start := Value();
      chunks := [];
      assert [] + Splits(start).0 == Splits(start).0;
      while buffer != ""
        invariant Splits(start) == (chunks + Splits(Value()).0, Splits(Value()).1)
        decreases |buffer|
      {
        SplitsNext(Value());
        ghost var more := chunks;
        var prevLen := |buffer|;
        var chunk;
        if !inThinkTag {
          chunk := ParseOutsideThink();
        } else {
          chunk := ParseInsideThink();
        }
        if chunk.Some? {
          assert more + ([chunk.value] + Splits(Value()).0) == (more + [chunk.value]) + Splits(Value()).0;
          chunks := chunks + [chunk.value];
        } else if |buffer| == prevLen {
          assert Splits(start) == (chunks + [], Value());
          break;
        }
      }
      SplitsEnd(Value());
      assert chunks + [] == chunks;
    }

    /** Hands out the held text in the current mode. */
    method Flush() returns (chunk: Option<ContentChunk>)
      requires Valid()
      modifies this
      ensures Valid() && buffer == "" && inThinkTag == old(inThinkTag)
      ensures ChunkLabels(chunk) == Parse(old(inThinkTag), old(buffer))
      ensures chunk == NonEmpty(Mode(inThinkTag), old(buffer))
    {
      FlushPartial(inThinkTag, buffer);
      if buffer != "" {
        chunk := Some(ContentChunk(Mode(inThinkTag), buffer));
        buffer := "";
      } else {
        chunk := None;
      }
    }
  }

  lemma HeldIsShort(m: bool, buf: string)
    requires buf == "" || Partial(m, buf)
    ensures |buf| <= 7 && (buf < CLOSE || buf < OPEN)
  {
  }

  /** Every way of cutting a text into chunks gives the one-shot parse of the text. */
  method ParseChunks(pieces: seq<string>) returns (chunks: seq<ContentChunk>)
    ensures Labels(chunks) == Parse(false, Join(pieces))
    ensures forall c :: c in chunks ==> c.content != ""
  {
    hide Parse, Label, Labels, Join;
    var parser := new ThinkTagParser();
    chunks := [];
    StartChunks();
    assert pieces[..0] == [];
    for i := 0 to |pieces|
      invariant parser.Valid() && fresh(parser)
      invariant Continues(false, Join(pieces[..i]), Labels(chunks), parser.inThinkTag, parser.buffer)
      invariant forall c :: c in chunks ==> c.content != ""
    {
      ghost var m, b := parser.inThinkTag, parser.buffer;
      var more := parser.Feed(pieces[i]);
      ContinuesTrans(false, Join(pieces[..i]), Labels(chunks), m, b,
                     pieces[i], Labels(more), parser.inThinkTag, parser.buffer);
      LabelsConcat(chunks, more);
      chunks := chunks + more;
      JoinAppend(pieces[..i], pieces[i]);
      assert pieces[..i + 1] == pieces[..i] + [pieces[i]];
    }
    assert pieces[..|pieces|] == pieces;
    assert Join(pieces) + "" == Join(pieces) && parser.buffer + "" == parser.buffer;
    var last := parser.Flush();
    if last.Some? {
      LabelsAppend(chunks, last.value);
      chunks := chunks + [last.value];
    }
  }

  lemma StartChunks()
    ensures Continues(false, Join([]), Labels([]), false, "")
  {
    assert forall rest: string :: "" + rest == rest && [] + Parse(false, rest) == Parse(false, rest);
  }

  lemma {:induction false} LabelsConcat(a: seq<ContentChunk>, b: seq<ContentChunk>)
    ensures Labels(a + b) == Labels(a) + Labels(b)
  {
    hide Label;
    if b == [] {
      assert a + b == a;
      assert Labels(a) + [] == Labels(a);
    } else {
      var init, last := b[..|b| - 1], b[|b| - 1];
      LabelsConcat(a, init);
      assert a + b == (a + init) + [last];
      LabelsAppend(a + init, last);
      assert (Labels(a) + Labels(init)) + Label(last.kind, last.content) == Labels(a) + (Labels(init) + Label(last.kind, last.content));
    }
  }
}
