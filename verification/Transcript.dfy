/** The chat transcript: rendering under a length limit, and the stack of running subagents. */
module Transcript {
  import opened Strings
  import opened Wrappers

  // ---------------------------------------------------------------- rendering

  /** `"\n".join(parts)` */
  function Lines(parts: seq<string>): string {
    if parts == [] then ""
    else if |parts| == 1 then parts[0]
    else parts[0] + "\n" + Lines(parts[1..])
  }

  /** The segments that show something: those that render without an error (None) and not to nothing. */
  function Visible(rendered: seq<Option<string>>): (r: seq<string>)
    ensures "" !in r
  {
    if rendered == [] then []
    else
      var last := rendered[|rendered| - 1];
      Visible(rendered[..|rendered| - 1]) + if last == None || last == Some("") then [] else [last.value]
  }

  /** Segments that all show something are shown one and all, in order; one that shows nothing leaves no trace. */
  lemma {:induction false} AllVisible(rendered: seq<Option<string>>)
    requires forall i :: 0 <= i < |rendered| ==> rendered[i] != None && rendered[i] != Some("")
    ensures |Visible(rendered)| == |rendered| && forall i :: 0 <= i < |rendered| ==> rendered[i] == Some(Visible(rendered)[i])
  {
    if rendered != [] {
      AllVisible(rendered[..|rendered| - 1]);
    }
  }

  lemma {:induction false} InvisibleLeavesNoTrace(a: seq<Option<string>>, x: Option<string>, b: seq<Option<string>>)
    requires x == None || x == Some("")
    ensures Visible(a + [x] + b) == Visible(a + b)
  {
    if b == [] {
      assert (a + [x] + b)[..|a|] == a && a + b == a;
      assert Visible(a) + [] == Visible(a);
    } else {
      var init := b[..|b| - 1];
      InvisibleLeavesNoTrace(a, x, init);
      assert (a + [x] + b)[..|a + b|] == a + [x] + init && (a + b)[..|a + b| - 1] == a + init;
    }
  }

  /** Lines are put one under the other. */
  lemma {:induction false} LinesConcat(a: seq<string>, b: seq<string>)
    requires a != [] && b != []
    ensures Lines(a + b) == Lines(a) + "\n" + Lines(b)
  {
    assert (a + b)[0] == a[0] && (a + b)[1..] == a[1..] + b;
    if |a| > 1 {
      LinesConcat(a[1..], b);
    } else {
      assert a[1..] + b == b;
    }
  }

  function Status(status: Option<string>): string {
    if status.None? then "" else status.value
  }

  function StatusText(status: Option<string>): string {
    if Status(status) == "" then "" else "\n\n" + Status(status)
  }

  /** A transcript that lost its oldest segments: the marker says so. */
  function Marked(parts: seq<string>, marker: string, tail: string): string {
    (if Lines(parts) != "" then marker else "") + Lines(parts) + tail
  }

  function LStripNewlines(s: string): (r: string)
    ensures |r| <= |s| && s[|s| - |r|..] == r && (r == "" || r[0] != '\n')
    ensures forall i :: 0 <= i < |s| - |r| ==> s[i] == '\n'
  {
    if s != "" && s[0] == '\n' then LStripNewlines(s[1..]) else s
  }

  predicate EndsWith(s: string, end: string) {
    |end| <= |s| && s[|s| - |end|..] == end
  }

  /** The segments from the k-th on fit, and no longer suffix does. */
  predicate Longest(segs: seq<string>, marker: string, tail: string, limit: int, k: nat) {
    && k < |segs| && |Marked(segs[k..], marker, tail)| <= limit
    && forall j :: 0 <= j < k ==> !(|Marked(segs[j..], marker, tail)| <= limit)
  }

  predicate NoneFits(segs: seq<string>, marker: string, tail: string, limit: int) {
    forall j :: 0 <= j < |segs| ==> !(|Marked(segs[j..], marker, tail)| <= limit)
  }

  const LEAST_TAIL := 20

  /** The marker, dots, what is left of the last segment from its n-th character on, and the status. */
  predicate CutAt(r: string, marker: string, last: string, tail: string, n: nat) {
    0 < n < |last| && r == marker + "..." + last[n..] + tail
  }

  ghost predicate EndShown(r: string, marker: string, last: string, tail: string) {
    exists n: nat :: CutAt(r, marker, last, tail, n)
  }

  /** No whole segment fits. With more than `LEAST_TAIL` characters to spare the limit is filled exactly
      with the end of the last segment; else the marker and the status are left, or the status alone. */
  ghost predicate LastResort(r: string, segs: seq<string>, marker: string, limit: int, status: Option<string>) {
    var tail := StatusText(status);
    if segs != [] && limit - |marker| - |tail| > LEAST_TAIL then
      |r| == limit && EndShown(r, marker, segs[|segs| - 1], tail)
    else if segs != [] && |marker + LStripNewlines(tail)| <= limit then r == marker + LStripNewlines(tail)
    else r == Status(status)
  }

  /** Everything if it fits; else the longest suffix of whole segments that fits, marked; else the last resort. */
  ghost predicate RightCut(r: string, segs: seq<string>, marker: string, limit: int, status: Option<string>) {
    var tail := StatusText(status);
    if |Lines(segs) + tail| <= limit then r == Lines(segs) + tail
    else
      && (forall k: nat :: Longest(segs, marker, tail, limit, k) ==> r == Marked(segs[k..], marker, tail))
      && (NoneFits(segs, marker, tail, limit) ==> LastResort(r, segs, marker, limit, status))
  }

  /** Ends with the status, less its own leading newlines; there are usually none. */
  predicate ShowsStatus(r: string, status: Option<string>) {
    EndsWith(r, LStripNewlines(Status(status)))
  }

  method Render(rendered: seq<Option<string>>, marker: string, limit: int, status: Option<string>) returns (r: string)
    ensures |r| <= limit || r == Status(status)
    ensures ShowsStatus(r, status)
    ensures RightCut(r, Visible(rendered), marker, limit, status)
  {
    var segs := VisibleOf(rendered);
    var tail := StatusText(status);
    r := Lines(segs) + tail;
    EndOfEnd(Lines(segs), status);
    hide *;
    if |r| <= limit {
      WholeIsRight(segs, marker, limit, status);
      return;
    }
    var parts, dropped, lastPart := segs, false, "";
    ghost var k: nat := 0;
    NoneTriedYet(segs, marker, tail, limit);
    while parts != []
      invariant k <= |segs| && parts == segs[k..]
      invariant TooLong(segs, marker, tail, limit, k)
      invariant dropped == (k > 0) && (dropped ==> lastPart == segs[k - 1])
      decreases |parts|
    {
      r := Marked(parts, marker, tail);
      if |r| <= limit {
        LongestIsRight(segs, marker, limit, status, k);
        MarkedShowsStatus(parts, marker, status);
        return;
      }
      OneMoreIsTooLong(segs, marker, tail, limit, k);
      lastPart := parts[0];
      dropped := true;
      parts := parts[1..];
      k := k + 1;
    }
    r := Fallback(segs, marker, limit, status, dropped, lastPart);
    NoneIsRight(r, segs, marker, limit, status);
  }

  method VisibleOf(rendered: seq<Option<string>>) returns (segs: seq<string>)
    ensures segs == Visible(rendered) && "" !in segs
  {
    segs := [];
    for n := 0 to |rendered|
      invariant segs == Visible(rendered[..n])
    {
      assert rendered[..n + 1][..n] == rendered[..n];
      if rendered[n].Some? && rendered[n].value != "" {
        segs := segs + [rendered[n].value];
      }
    }
    assert rendered[..|rendered|] == rendered;
  }

  /** No suffix of whole segments fits: the end of the last one, else the marker, else the status. */
  method Fallback(segs: seq<string>, marker: string, limit: int, status: Option<string>, dropped: bool, lastPart: string) returns (r: string)
    requires "" !in segs && TooLong(segs, marker, StatusText(status), limit, |segs|)
    requires dropped == (segs != []) && (dropped ==> lastPart == segs[|segs| - 1])
    ensures |r| <= limit || r == Status(status)
    ensures ShowsStatus(r, status) && LastResort(r, segs, marker, limit, status)
  {
    hide TooLong, Marked, StatusText, Status, LastResort, ShowsStatus, EndsWith, LStripNewlines, Lines;
    var tail := StatusText(status);
    if dropped && lastPart != "" {
      LastAloneIsTooLong(segs, marker, tail, limit);
      var budget := limit - |marker| - |tail|;
      if budget > LEAST_TAIL {
        var shown := if |lastPart| > budget then "..." + lastPart[|lastPart| - (budget - 3)..] else lastPart;
        r := marker + shown + tail;
        if |r| <= limit {
          CutIsRight(r, segs, marker, limit, status, |lastPart| - (budget - 3));
          EndOfEnd(marker + shown, status);
          return;
        }
      }
    }
    if dropped {
      LastAloneIsTooLong(segs, marker, tail, limit);
      r := marker + LStripNewlines(tail);
      if |r| <= limit {
        MinimalIsRight(segs, marker, limit, status);
        return;
      }
    }
    r := Status(status);
    BareStatusIsRight(segs, marker, limit, status);
  }

  lemma MinimalIsRight(segs: seq<string>, marker: string, limit: int, status: Option<string>)
    requires segs != [] && limit - |marker| - |StatusText(status)| <= LEAST_TAIL && |marker + LStripNewlines(StatusText(status))| <= limit
    ensures LastResort(marker + LStripNewlines(StatusText(status)), segs, marker, limit, status)
    ensures ShowsStatus(marker + LStripNewlines(StatusText(status)), status)
  {
    StatusIsLast(status);
    hide LStripNewlines, StatusText, Status;
    EndsFurther(marker, LStripNewlines(StatusText(status)), LStripNewlines(StatusText(status)));
  }

  lemma BareStatusIsRight(segs: seq<string>, marker: string, limit: int, status: Option<string>)
    requires segs != [] ==> limit - |marker| - |StatusText(status)| <= LEAST_TAIL && |marker + LStripNewlines(StatusText(status))| > limit
    ensures LastResort(Status(status), segs, marker, limit, status) && ShowsStatus(Status(status), status)
  {
  }

  lemma CutIsRight(r: string, segs: seq<string>, marker: string, limit: int, status: Option<string>, n: int)
    requires segs != [] && 0 < n < |segs[|segs| - 1]| && limit - |marker| - |StatusText(status)| > LEAST_TAIL
    requires r == marker + ("..." + segs[|segs| - 1][n..]) + StatusText(status) && |r| == limit
    ensures LastResort(r, segs, marker, limit, status)
  {
    assert CutAt(r, marker, segs[|segs| - 1], StatusText(status), n);
  }

  predicate TooLong(segs: seq<string>, marker: string, tail: string, limit: int, k: nat) {
    k <= |segs| && forall j :: 0 <= j < k ==> !(|Marked(segs[j..], marker, tail)| <= limit)
  }

  lemma NoneTriedYet(segs: seq<string>, marker: string, tail: string, limit: int)
    ensures TooLong(segs, marker, tail, limit, 0) && segs[0..] == segs
  {
  }

  lemma OneMoreIsTooLong(segs: seq<string>, marker: string, tail: string, limit: int, k: nat)
    requires k < |segs| && TooLong(segs, marker, tail, limit, k) && |Marked(segs[k..], marker, tail)| > limit
    ensures TooLong(segs, marker, tail, limit, k + 1) && segs[k..][1..] == segs[k + 1..] && segs[k..][0] == segs[k]
  {
  }

  lemma WholeIsRight(segs: seq<string>, marker: string, limit: int, status: Option<string>)
    requires |Lines(segs) + StatusText(status)| <= limit
    ensures RightCut(Lines(segs) + StatusText(status), segs, marker, limit, status)
  {
  }

  lemma LongestIsRight(segs: seq<string>, marker: string, limit: int, status: Option<string>, k: nat)
    requires |Lines(segs) + StatusText(status)| > limit && k < |segs| && TooLong(segs, marker, StatusText(status), limit, k)
    requires |Marked(segs[k..], marker, StatusText(status))| <= limit
    ensures RightCut(Marked(segs[k..], marker, StatusText(status)), segs, marker, limit, status)
  {
    OnlyOneIsLongest(segs, marker, StatusText(status), limit, k);
    hide LastResort, Marked, StatusText, NoneFits, Longest, TooLong;
  }

  lemma OnlyOneIsLongest(segs: seq<string>, marker: string, tail: string, limit: int, k: nat)
    requires k < |segs| && TooLong(segs, marker, tail, limit, k) && |Marked(segs[k..], marker, tail)| <= limit
    ensures !NoneFits(segs, marker, tail, limit) && forall j: nat :: Longest(segs, marker, tail, limit, j) ==> j == k
  {
    hide Marked;
  }

  lemma MarkedShowsStatus(parts: seq<string>, marker: string, status: Option<string>)
    ensures ShowsStatus(Marked(parts, marker, StatusText(status)), status)
  {
    EndOfEnd((if Lines(parts) != "" then marker else "") + Lines(parts), status);
    hide StatusText, ShowsStatus;
  }

  lemma NoneIsRight(r: string, segs: seq<string>, marker: string, limit: int, status: Option<string>)
    requires |Lines(segs) + StatusText(status)| > limit && TooLong(segs, marker, StatusText(status), limit, |segs|)
    requires LastResort(r, segs, marker, limit, status)
    ensures RightCut(r, segs, marker, limit, status)
  {
    hide LastResort, Marked, StatusText;
  }

  lemma LastAloneIsTooLong(segs: seq<string>, marker: string, tail: string, limit: int)
    requires segs != [] && "" !in segs && TooLong(segs, marker, tail, limit, |segs|)
    ensures |marker| + |segs[|segs| - 1]| + |tail| > limit && segs[|segs| - 1] != ""
  {
    assert segs[|segs| - 1..] == [segs[|segs| - 1]];
    assert segs[|segs| - 1] in segs;
    assert !(|Marked(segs[|segs| - 1..], marker, tail)| <= limit);
  }

  /** Stripping newlines off the status text leaves the status without its own leading ones. */
  lemma StatusIsLast(status: Option<string>)
    ensures LStripNewlines(StatusText(status)) == LStripNewlines(Status(status))
    ensures EndsWith(StatusText(status), LStripNewlines(Status(status)))
  {
    var st, tail := Status(status), StatusText(status);
    assert tail == (if st == "" then st else "\n\n" + st);
    hide EndsWith, Status, StatusText, LStripNewlines;
    TwoNewlinesLess(st);
    StripIsSuffix(tail);
  }

  lemma TwoNewlinesLess(s: string)
    ensures LStripNewlines("\n\n" + s) == LStripNewlines(s)
  {
    assert ("\n\n" + s)[1..] == "\n" + s;
    OneNewlineLess(s);
  }

  lemma StripIsSuffix(s: string)
    ensures EndsWith(s, LStripNewlines(s))
  {
  }

  /** A status with no leading newline is shown as it is. */
  lemma PlainStatusIsShown(r: string, status: Option<string>)
    requires ShowsStatus(r, status) && (Status(status) != "" ==> Status(status)[0] != '\n')
    ensures EndsWith(r, Status(status))
  {
  }

  lemma OneNewlineLess(s: string)
    ensures LStripNewlines("\n" + s) == LStripNewlines(s)
  {
    assert ("\n" + s)[1..] == s;
  }

  lemma EndOfEnd(front: string, status: Option<string>)
    ensures ShowsStatus(front + StatusText(status), status)
  {
    hide LStripNewlines, StatusText, Status, EndsWith;
    StatusIsLast(status);
    EndsFurther(front, StatusText(status), LStripNewlines(Status(status)));
  }

  lemma EndsFurther(front: string, tail: string, end: string)
    requires EndsWith(tail, end)
    ensures EndsWith(front + tail, end)
  {
    assert (front + tail)[|front + tail| - |end|..] == tail[|tail| - |end|..];
  }

  /** A suffix of a suffix that fits also fits, so there is one length at which fitting starts. */
  lemma ShorterFitsToo(segs: seq<string>, marker: string, tail: string, limit: int, k: nat, j: nat)
    requires "" !in segs && k <= j < |segs| && |Marked(segs[k..], marker, tail)| <= limit
    ensures |Marked(segs[j..], marker, tail)| <= limit
    decreases j - k
  {
    if k < j {
      assert segs[k..][1..] == segs[k + 1..];
      assert segs[k] in segs;
      ShorterFitsToo(segs, marker, tail, limit, k + 1, j);
    }
  }

  // ---------------------------------------------------------------- running subagents

  const SYNTHETIC := "__task_"

  function Digits(n: nat): string {
    (if n < 10 then "" else Digits(n / 10)) + [('0' as int + n % 10) as char]
  }

  /** The id a Task call is tracked under; calls without an id get one from the depth. */
  function TaskId(id: string, depth: nat): (r: string)
    ensures r != "" && (Strip(id) != "" ==> r == Strip(id)) && (Strip(id) == "" ==> SYNTHETIC <= r)
  {
    if Strip(id) != "" then Strip(id) else SYNTHETIC + Digits(depth + 1)
  }

  /** One id extends the other. */
  predicate RoughlyMatch(a: string, b: string) {
    a != "" && b != "" && (a <= b || b <= a)
  }

  /** The topmost tracked id that the result's id matches, or -1. */
  function TopMatch(stack: seq<string>, id: string): (r: int)
    ensures -1 <= r < |stack| && (r >= 0 ==> RoughlyMatch(stack[r], id))
    ensures forall i :: r < i < |stack| ==> !RoughlyMatch(stack[i], id)
  {
    if stack == [] then -1
    else if RoughlyMatch(stack[|stack| - 1], id) then |stack| - 1
    else TopMatch(stack[..|stack| - 1], id)
  }

  /** How many subagents stay open when a result with this id is popped; all of them if none matches. */
  function Remaining(stack: seq<string>, rawId: string): (r: nat)
    ensures r <= |stack|
  {
    var id := Strip(rawId);
    if stack == [] then 0
    else if id != "" then (if TopMatch(stack, id) >= 0 then TopMatch(stack, id) else |stack|)
    else if SYNTHETIC <= stack[|stack| - 1] then |stack| - 1
    else |stack|
  }

  /** A tool result: pop by its id; failing that, a result that looks like a Task's closes a subagent
      that was tracked under a made-up id. */
  function AfterResult(stack: seq<string>, rawId: string, name: Option<string>, looksLikeTask: bool): (r: nat)
    ensures r <= |stack|
  {
    var n := Remaining(stack, rawId);
    if n == |stack| && stack != [] && Strip(rawId) != "" && SYNTHETIC <= stack[|stack| - 1]
       && (name == None || name == Some("Task")) && looksLikeTask
    then |stack| - 1
    else n
  }

  class TranscriptBuffer {
    var subagentStack: seq<string>
    var subagentSegments: seq<string>

    predicate Valid()
      reads this
    {
      |subagentStack| == |subagentSegments| && "" !in subagentStack
    }

    constructor ()
      ensures Valid() && subagentStack == []
    {
      subagentStack, subagentSegments := [], [];
    }

    method SubagentPush(id: string, segment: string)
      requires Valid()
      modifies this
      ensures Valid()
      ensures subagentStack == old(subagentStack) + [TaskId(id, |old(subagentStack)|)]
      ensures subagentSegments == old(subagentSegments) + [segment]
    {
      var toolId := Strip(id);
      if toolId == "" {
        toolId := SYNTHETIC + Digits(|subagentStack| + 1);
      }
      subagentStack := subagentStack + [toolId];
      subagentSegments := subagentSegments + [segment];
    }

    /** Both stacks lose the same entries off the top. */
    method SubagentPop(id: string) returns (popped: bool)
      requires Valid()
      modifies this
      ensures Valid() && popped == (Remaining(old(subagentStack), id) < |old(subagentStack)|)
      ensures subagentStack == old(subagentStack)[..Remaining(old(subagentStack), id)]
      ensures subagentSegments == old(subagentSegments)[..Remaining(old(subagentStack), id)]
    {
      var toolId := Strip(id);
      if subagentStack == [] {
        return false;
      }
      var top := |subagentStack| - 1;
      if toolId != "" {
        if RoughlyMatch(subagentStack[top], toolId) {
          subagentStack, subagentSegments := subagentStack[..top], subagentSegments[..top];
          return true;
        }
        var idx := -1;
        var i := top;
        while i >= 0
          invariant -1 <= i <= top && idx == -1
          invariant forall j :: i < j <= top ==> !RoughlyMatch(subagentStack[j], toolId)
        {
          if RoughlyMatch(subagentStack[i], toolId) {
            idx := i;
            break;
          }
          i := i - 1;
        }
        TopMatchIs(subagentStack, toolId, idx);
        if idx < 0 {
          return false;
        }
        while |subagentStack| > idx
          invariant idx <= |subagentStack| <= |old(subagentStack)| && |subagentSegments| == |subagentStack|
          invariant subagentStack == old(subagentStack)[..|subagentStack|]
          invariant subagentSegments == old(subagentSegments)[..|subagentStack|]
          decreases |subagentStack|
        {
          subagentStack := subagentStack[..|subagentStack| - 1];
          subagentSegments := subagentSegments[..|subagentSegments| - 1];
        }
        return true;
      }
      if SYNTHETIC <= subagentStack[top] {
        subagentStack, subagentSegments := subagentStack[..top], subagentSegments[..top];
        return true;
      }
      popped := false;
    }

    method CloseOnResult(id: string, name: Option<string>, looksLikeTask: bool)
      requires Valid()
      modifies this
      ensures Valid()
      ensures subagentStack == old(subagentStack)[..AfterResult(old(subagentStack), id, name, looksLikeTask)]
    {
      if subagentStack != [] {
        var popped := SubagentPop(id);
        var top := if subagentStack != [] then subagentStack[|subagentStack| - 1] else "";
        if !popped && Strip(id) != "" && SYNTHETIC <= top && (name == None || name == Some("Task")) && looksLikeTask {
          var _ := SubagentPop("");
        }
      }
    }
  }

  lemma {:induction false} TopMatchIs(stack: seq<string>, id: string, r: int)
    requires -1 <= r < |stack| && (r >= 0 ==> RoughlyMatch(stack[r], id))
    requires forall i :: r < i < |stack| ==> !RoughlyMatch(stack[i], id)
    ensures TopMatch(stack, id) == r
  {
  }

  /** A result that, if nothing open matches its id, is taken for that of a Task without an id. */
  predicate TakenForTask(top: string, name: Option<string>, looksLikeTask: bool) {
    SYNTHETIC <= top && (name == None || name == Some("Task")) && looksLikeTask
  }

  /** A result closes no subagent exactly when its id matches no open one and it is not taken for the
      result of a Task without an id. A result without an id closes such a Task, and only such. */
  lemma ResultClosesNone(stack: seq<string>, id: string, name: Option<string>, looksLikeTask: bool)
    ensures AfterResult(stack, id, name, looksLikeTask) == |stack| <==>
              stack == []
              || if Strip(id) == "" then !(SYNTHETIC <= stack[|stack| - 1])
                 else && (forall i :: 0 <= i < |stack| ==> stack[i] == "" || (!(stack[i] <= Strip(id)) && !(Strip(id) <= stack[i])))
                      && !TakenForTask(stack[|stack| - 1], name, looksLikeTask)
  {
    hide Strip;
    var t := TopMatch(stack, Strip(id));
    assert t >= 0 ==> RoughlyMatch(stack[t], Strip(id));
  }

  /** The result, whatever its id, belongs to the Task on top: their ids match, or the Task has none and
      the result has none either or is taken for a Task's. */
  predicate OwnResult(stack: seq<string>, id: string, name: Option<string>, looksLikeTask: bool)
    requires stack != []
  {
    var top := stack[|stack| - 1];
    if Strip(id) == "" then SYNTHETIC <= top
    else
      || RoughlyMatch(top, Strip(id))
      || ((forall i :: 0 <= i < |stack| ==> !RoughlyMatch(stack[i], Strip(id))) && TakenForTask(top, name, looksLikeTask))
  }

  lemma ResultClosesTop(stack: seq<string>, id: string, name: Option<string>, looksLikeTask: bool)
    requires stack != []
    ensures AfterResult(stack, id, name, looksLikeTask) == |stack| - 1 <==> OwnResult(stack, id, name, looksLikeTask)
  {
    var t := TopMatch(stack, Strip(id));
    assert t >= 0 ==> RoughlyMatch(stack[t], Strip(id));
  }

  /** In particular a result that repeats the id of the call, white space aside, or lacks one as the call does. */
  lemma SameIdIsOwn(stack: seq<string>, id: string, resultId: string, name: Option<string>, looksLikeTask: bool)
    requires Strip(resultId) == Strip(id)
    ensures OwnResult(stack + [TaskId(id, |stack|)], resultId, name, looksLikeTask)
  {
  }

  /** What happens between the start of the stream and its end: a Task call around what its subagent
      does and its result, or the result of an ordinary tool. */
  datatype Item = Task(id: string, inner: seq<Item>, resultId: string, name: Option<string>, looksLikeTask: bool)
                | Tool(id: string, name: Option<string>, looksLikeTask: bool)

  function After(stack: seq<string>, items: seq<Item>): seq<string>
    decreases items
  {
    if items == [] then stack
    else After(AfterItem(stack, items[0]), items[1..])
  }

  function AfterItem(stack: seq<string>, item: Item): seq<string>
    decreases item
  {
    match item
    case Task(id, inner, resultId, name, task) =>
      var within := After(stack + [TaskId(id, |stack|)], inner);
      within[..AfterResult(within, resultId, name, task)]
    case Tool(id, name, task) => stack[..AfterResult(stack, id, name, task)]
  }

  /** Every Task has a result of its own, and every ordinary result closes none of the subagents open
      around it. */
  predicate Orderly(stack: seq<string>, items: seq<Item>)
    decreases items
  {
    forall n :: 0 <= n < |items| ==> OrderlyItem(stack, items[n])
  }

  predicate OrderlyItem(stack: seq<string>, item: Item)
    decreases item
  {
    match item
    case Task(id, inner, resultId, name, task) =>
      var within := stack + [TaskId(id, |stack|)];
      Orderly(within, inner) && OwnResult(within, resultId, name, task)
    case Tool(id, name, task) => AfterResult(stack, id, name, task) == |stack|
  }

  /** However deep Tasks nest, and whatever their ids, each result closes its own Task and no other. */
  lemma {:induction false} NestingIsUndone(stack: seq<string>, items: seq<Item>)
    requires Orderly(stack, items)
    ensures After(stack, items) == stack
    decreases items
  {
    if items != [] {
      ItemIsUndone(stack, items[0]);
      assert forall n :: 0 <= n < |items[1..]| ==> items[1..][n] == items[n + 1];
      NestingIsUndone(stack, items[1..]);
    }
  }

  lemma {:induction false} ItemIsUndone(stack: seq<string>, item: Item)
    requires OrderlyItem(stack, item)
    ensures AfterItem(stack, item) == stack
    decreases item
  {
    if item.Task? {
      var within := stack + [TaskId(item.id, |stack|)];
      NestingIsUndone(within, item.inner);
      ResultClosesTop(within, item.resultId, item.name, item.looksLikeTask);
      assert within[..|stack|] == stack;
    }
  }
}
