/** The events sent to the client and the grammar a whole message has to follow. */
module SseTrace {
  import opened ThinkParser
  import opened Wrappers

  datatype BlockKind = TextBlock | ThinkingBlock | ToolBlock(name: string)
  datatype DeltaKind = TextDelta | ThinkingDelta | InputJsonDelta
  datatype Event =
    | MessageStart
    | BlockStart(index: int, kind: BlockKind)
    | BlockDelta(index: int, delta: DeltaKind, payload: string)
    | BlockStop(index: int)
    | MessageDelta(stopReason: string)
    | MessageStop

  predicate Fits(kind: BlockKind, delta: DeltaKind) {
    match kind
    case TextBlock => delta == TextDelta
    case ThinkingBlock => delta == ThinkingDelta
    case ToolBlock(_) => delta == InputJsonDelta
  }

  // ---------------------------------------------------------------- the grammar

  /** One block of the message: its kind, where its start event is, where its stop event is. */
  datatype Life = Life(kind: BlockKind, start: nat, stop: Option<nat>)

  ghost predicate EventExplained(t: seq<Event>, life: seq<Life>, p: nat)
    requires p < |t|
  {
    match t[p]
    case BlockStart(i, kind) => 0 <= i < |life| && life[i].start == p && life[i].kind == kind
    case BlockStop(i) => 0 <= i < |life| && life[i].stop == Some(p)
    case BlockDelta(i, delta, _) =>
      0 <= i < |life| && life[i].start < p && (life[i].stop.Some? ==> p < life[i].stop.value) && Fits(life[i].kind, delta)
    case _ => false
  }

  ghost predicate LifeExplained(t: seq<Event>, life: seq<Life>, i: nat)
    requires i < |life|
  {
    && life[i].start < |t| && t[life[i].start] == BlockStart(i, life[i].kind)
    && (life[i].stop.Some? ==> life[i].start < life[i].stop.value < |t| && t[life[i].stop.value] == BlockStop(i))
  }

  /** Block i comes before block j; two text or thinking blocks are never open together. */
  ghost predicate Ordered(a: Life, b: Life) {
    && a.start < b.start
    && (!a.kind.ToolBlock? && !b.kind.ToolBlock? ==> a.stop.Some? && a.stop.value < b.start)
  }

  /** Every event belongs to one block of `life`, every block has one start and at most one stop. */
  ghost predicate Explains(t: seq<Event>, life: seq<Life>) {
    && (forall p :: 0 <= p < |t| ==> EventExplained(t, life, p))
    && (forall i :: 0 <= i < |life| ==> LifeExplained(t, life, i))
    && (forall i, j :: 0 <= i < j < |life| ==> Ordered(life[i], life[j]))
  }

  /** The blocks of a complete message: numbered 0, 1, 2, ... in starting order, all of them closed. */
  ghost predicate CompleteBody(t: seq<Event>) {
    exists life: seq<Life> :: Explains(t, life) && forall i :: 0 <= i < |life| ==> life[i].stop.Some?
  }

  ghost predicate CompleteMessage(t: seq<Event>) {
    && |t| >= 3 && t[0] == MessageStart && t[|t| - 2].MessageDelta? && t[|t| - 1] == MessageStop
    && CompleteBody(t[1..|t| - 2])
  }

  // ---------------------------------------------------------------- an incremental recogniser

  /** What is open after a prefix of the events: at most one text or thinking block, and tool blocks. */
  datatype Blocks = Bad | Blocks(next: nat, content: Option<(int, BlockKind)>, tools: set<int>)

  function Accept(b: Blocks, e: Event): Blocks {
    if b.Bad? then Bad
    else
      match e
      case BlockStart(i, kind) =>
        if i != b.next || b.content.Some? then Bad
        else if kind.ToolBlock? then b.(next := i + 1, tools := b.tools + {i})
        else b.(next := i + 1, content := Some((i, kind)))
      case BlockDelta(i, delta, _) =>
        if b.content.Some? && b.content.value.0 == i && Fits(b.content.value.1, delta) then b
        else if i in b.tools && delta == InputJsonDelta then b
        else Bad
      case BlockStop(i) =>
        if b.content.Some? && b.content.value.0 == i then b.(content := None)
        else if i in b.tools then b.(tools := b.tools - {i})
        else Bad
      case _ => Bad
  }

  function AcceptAll(t: seq<Event>): Blocks {
    if t == [] then Blocks(0, None, {}) else Accept(AcceptAll(t[..|t| - 1]), t[|t| - 1])
  }

  ghost predicate StillOpen(life: seq<Life>, b: Blocks)
    requires b.Blocks?
  {
    && |life| == b.next
    && (b.content.Some? ==> 0 <= b.content.value.0 < |life| && b.content.value.0 !in b.tools)
    && (forall i :: i in b.tools ==> 0 <= i < |life|)
    && (forall i :: 0 <= i < |life| ==>
         (life[i].stop.None? <==> i in b.tools || b.content == Some((i, life[i].kind)))
         && (i in b.tools ==> life[i].kind.ToolBlock?)
         && (b.content.Some? && b.content.value.0 == i ==> life[i].kind == b.content.value.1 && !life[i].kind.ToolBlock?))
  }

  /** The block list after one more event at position p. */
  function Next(prior: seq<Life>, e: Event, p: nat): seq<Life> {
    match e
    case BlockStart(i, kind) => prior + [Life(kind, p, None)]
    case BlockStop(i) => if 0 <= i < |prior| then prior[i := prior[i].(stop := Some(p))] else prior
    case _ => prior
  }

  ghost predicate CanAppend(t: seq<Event>, e: Event, prior: seq<Life>, b: Blocks) {
    b.Blocks? && Explains(t, prior) && StillOpen(prior, b) && Accept(b, e).Blocks?
  }

  lemma EventsStayExplained(t: seq<Event>, e: Event, prior: seq<Life>, b: Blocks, p: nat)
    requires CanAppend(t, e, prior, b) && p <= |t|
    ensures EventExplained(t + [e], Next(prior, e, |t|), p)
  {
    if p < |t| {
      assert EventExplained(t, prior, p);
    } else if e.BlockDelta? {
      assert LifeExplained(t, prior, e.index);
    }
  }

  lemma LivesStayExplained(t: seq<Event>, e: Event, prior: seq<Life>, b: Blocks, i: nat)
    requires CanAppend(t, e, prior, b) && i < |Next(prior, e, |t|)|
    ensures LifeExplained(t + [e], Next(prior, e, |t|), i)
  {
    if i < |prior| {
      assert LifeExplained(t, prior, i);
    }
  }

  lemma OrderStays(t: seq<Event>, e: Event, prior: seq<Life>, b: Blocks, i: nat, j: nat)
    requires CanAppend(t, e, prior, b) && i < j < |Next(prior, e, |t|)|
    ensures Ordered(Next(prior, e, |t|)[i], Next(prior, e, |t|)[j])
  {
    assert LifeExplained(t, prior, i);
    if j < |prior| {
      assert Ordered(prior[i], prior[j]);
    }
  }

  lemma OpenStays(t: seq<Event>, e: Event, prior: seq<Life>, b: Blocks)
    requires CanAppend(t, e, prior, b)
    ensures StillOpen(Next(prior, e, |t|), Accept(b, e))
  {
    hide Explains;
  }

  /** One more event: what was explained stays explained, and the new event is explained too. */
  lemma ExplainsAppend(t: seq<Event>, e: Event, prior: seq<Life>, b: Blocks)
    requires CanAppend(t, e, prior, b)
    ensures Explains(t + [e], Next(prior, e, |t|))
  {
    hide CanAppend, Next, EventExplained, LifeExplained, Ordered;
    forall p | 0 <= p < |t + [e]|
      ensures EventExplained(t + [e], Next(prior, e, |t|), p)
    {
      EventsStayExplained(t, e, prior, b, p);
    }
    forall i | 0 <= i < |Next(prior, e, |t|)|
      ensures LifeExplained(t + [e], Next(prior, e, |t|), i)
    {
      LivesStayExplained(t, e, prior, b, i);
    }
    forall i, j | 0 <= i < j < |Next(prior, e, |t|)|
      ensures Ordered(Next(prior, e, |t|)[i], Next(prior, e, |t|)[j])
    {
      OrderStays(t, e, prior, b, i, j);
    }
  }

  /** Whatever the recogniser accepts follows the grammar. */
  lemma {:induction false} AcceptedIsExplained(t: seq<Event>) returns (life: seq<Life>)
    requires AcceptAll(t).Blocks?
    ensures Explains(t, life) && StillOpen(life, AcceptAll(t))
  {
    hide Explains, StillOpen, Accept, Next;
    if t == [] {
      life := [];
      NothingYet();
    } else {
      var init, e := t[..|t| - 1], t[|t| - 1];
      assert AcceptAll(init).Blocks? by { BadStaysBad(AcceptAll(init), e); }
      var prior := AcceptedIsExplained(init);
      life := Next(prior, e, |init|);
      ExplainsAppend(init, e, prior, AcceptAll(init));
      OpenStays(init, e, prior, AcceptAll(init));
      assert init + [e] == t;
    }
  }

  lemma NothingYet()
    ensures Explains([], []) && StillOpen([], Blocks(0, None, {}))
  {
  }

  lemma BadStaysBad(b: Blocks, e: Event)
    ensures b.Bad? ==> Accept(b, e).Bad?
  {
  }

  lemma AcceptedIsComplete(t: seq<Event>)
    requires AcceptAll(t).Blocks? && AcceptAll(t).content.None? && AcceptAll(t).tools == {}
    ensures CompleteBody(t)
  {
    var life := AcceptedIsExplained(t);
  }

  // ---------------------------------------------------------------- what the deltas say

  function EventLabels(e: Event): seq<Labelled> {
    if e.BlockDelta? && e.delta == TextDelta then Label(Text, e.payload)
    else if e.BlockDelta? && e.delta == ThinkingDelta then Label(Thinking, e.payload)
    else []
  }

  /** The text and thinking shown, character by character. */
  function Content(t: seq<Event>): seq<Labelled> {
    if t == [] then [] else Content(t[..|t| - 1]) + EventLabels(t[|t| - 1])
  }

  predicate IsArgument(e: Event, i: int) {
    e.BlockDelta? && e.index == i && e.delta == InputJsonDelta
  }

  /** The payloads of the argument deltas of block i, which is then a tool block. */
  function Deltas(t: seq<Event>, i: int): seq<string> {
    if t == [] then []
    else Deltas(t[..|t| - 1], i) + (if IsArgument(t[|t| - 1], i) then [t[|t| - 1].payload] else [])
  }

  /** What tells of a call that is sent as a whole: its name, then its arguments, and after how many
      characters of text and thinking they come. */
  datatype Mark = CallName(name: string, after: nat) | CallArgs(payload: string, after: nat)

  function MarksOf(e: Event, native: set<int>, after: nat): seq<Mark> {
    match e
    case BlockStart(i, ToolBlock(name)) => if i in native then [] else [CallName(name, after)]
    case BlockDelta(i, InputJsonDelta, payload) => if i in native then [] else [CallArgs(payload, after)]
    case _ => []
  }

  /** The tool blocks other than the native ones, in order, as their events tell of them. */
  function Recovered(t: seq<Event>, native: set<int>): seq<Mark> {
    if t == [] then []
    else Recovered(t[..|t| - 1], native) + MarksOf(t[|t| - 1], native, |Content(t[..|t| - 1])|)
  }

  predicate StartsCall(e: Event, i: int) {
    e.BlockStart? && e.index == i && e.kind.ToolBlock?
  }

  /** The name that tool block i was started with. */
  function StartName(t: seq<Event>, i: int): string {
    if t == [] then ""
    else if StartsCall(t[|t| - 1], i) then t[|t| - 1].kind.name
    else StartName(t[..|t| - 1], i)
  }

  lemma Append(t: seq<Event>, e: Event)
    ensures AcceptAll(t + [e]) == Accept(AcceptAll(t), e)
    ensures Content(t + [e]) == if EventLabels(e) == [] then Content(t) else Content(t) + EventLabels(e)
    ensures forall i :: Deltas(t + [e], i) ==
                        if IsArgument(e, i) then Deltas(t, i) + [e.payload] else Deltas(t, i)
    ensures forall i :: StartName(t + [e], i) == if StartsCall(e, i) then e.kind.name else StartName(t, i)
    ensures forall native :: Recovered(t + [e], native) == Recovered(t, native) + MarksOf(e, native, |Content(t)|)
  {
    assert (t + [e])[..|t|] == t;
    assert Content(t) + [] == Content(t);
    assert forall i :: Deltas(t, i) + [] == Deltas(t, i);
  }

  ghost predicate Below(b: Blocks) {
    b.Blocks? ==>
      && (b.content.Some? ==> b.content.value.0 < b.next)
      && forall i :: i in b.tools ==> i < b.next
  }

  /** Only blocks that have been started occur in accepted events. */
  lemma {:induction false} FreshBlockTellsNothing(t: seq<Event>, native: set<int>, i: int)
    requires AcceptAll(t).Blocks? && i >= AcceptAll(t).next
    ensures Below(AcceptAll(t)) && Recovered(t, native + {i}) == Recovered(t, native)
  {
    if t != [] {
      var init, e := t[..|t| - 1], t[|t| - 1];
      assert AcceptAll(init).Blocks?;
      FreshBlockTellsNothing(init, native, i);
    }
  }
}
