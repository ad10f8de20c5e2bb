/** Streams of well-formed tool calls written as text, and the chunkings under which the heuristic
    parser recovers them. */
module CanonicalCalls {
  import opened Strings
  import opened Wrappers
  import opened HeuristicParser

  datatype Call = Call(gap: string, name: string, params: seq<(string, string)>)

  // ---------------------------------------------------------------- how calls are written

  function Parameter(key: string, value: string): string {
    PARAMETER + key + ">" + value + END_PARAMETER
  }

  function Parameters(ps: seq<(string, string)>): string {
    if ps == [] then "" else Parameter(ps[0].0, ps[0].1) + Parameters(ps[1..])
  }

  function Opener(c: Call): string {
    [BULLET] + c.gap + FUNCTION
  }

  function OpeningTag(c: Call): string {
    Opener(c) + c.name + ">"
  }

  function Print(calls: seq<Call>): string {
    if calls == [] then "" else OpeningTag(calls[0]) + (Parameters(calls[0].params) + Print(calls[1..]))
  }

  function Collect(done: map<string, string>, ps: seq<(string, string)>): map<string, string>
    decreases |ps|
  {
    if ps == [] then done else Collect(done[ps[0].0 := ps[0].1], ps[1..])
  }

  function Meaning(calls: seq<Call>): seq<ToolUse> {
    if calls == [] then []
    else [ToolUse(calls[0].name, Collect(map[], calls[0].params))] + Meaning(calls[1..])
  }

  // ---------------------------------------------------------------- which calls are well formed

  predicate HasNoBullet(s: string) {
    forall i :: 0 <= i < |s| ==> s[i] != BULLET
  }

  /** The word followed by its '>' spells a closing tag. */
  predicate EndsLikeEnd(w: string) {
    |w| >= 11 && w[|w| - 11..] == END_PARAMETER[..11]
  }

  /** A function name or a parameter key. */
  predicate Word(w: string) {
    w != "" && '>' !in w && Strip(w) == w && HasNoBullet(w)
  }

  predicate Value(v: string) {
    Strip(v) == v && HasNoBullet(v) && !Contains(v, END_PARAMETER)
  }

  predicate GoodParams(ps: seq<(string, string)>) {
    forall i :: 0 <= i < |ps| ==> Word(ps[i].0) && Value(ps[i].1)
  }

  predicate GoodCall(c: Call) {
    (forall i :: 0 <= i < |c.gap| ==> IsSpace(c.gap[i])) && Word(c.name) && GoodParams(c.params)
  }

  predicate GoodCalls(calls: seq<Call>) {
    forall i :: 0 <= i < |calls| ==> GoodCall(calls[i])
  }

  // ---------------------------------------------------------------- closing tags in well-formed text

  lemma OnlyFirstBracket(s: string, i: int, k: int)
    requires At(s, END_PARAMETER, i) && i <= k < i + 12
    ensures s[k] == '<' <==> k == i
    ensures s[k] == '>' <==> k == i + 11
    ensures s[k] != '='
  {
    assert s[k] == s[i..i + 12][k - i] == END_PARAMETER[k - i];
  }

  /** A tag `opener` + word + `>` contains no closing tag, unless the word ends like one. */
  lemma NoEndInTag(opener: string, w: string, rest: string, i: int)
    requires Word(w) && !EndsLikeEnd(w) && opener != "" && opener[|opener| - 1] == '=' && '>' !in opener
    requires At(opener + w + ">" + rest, END_PARAMETER, i)
    ensures i > |opener| + |w|
  {
    var s := opener + w + ">" + rest;
    var o := |opener| + |w|;
    assert s[o] == '>';
    assert s[i..i + 12][..11] == s[i..i + 11];
    if |w| >= 11 {
      assert s[o - 11..o] == w[|w| - 11..];
    }
    OnlyFirstBracket(s, i, i + 11);
    if i <= o < i + 11 {
      OnlyFirstBracket(s, i, o);
    } else if i < |opener| && o == i + 11 {
      OnlyFirstBracket(s, i, |opener| - 1);
    }
  }

  /** The first closing tag after a value is its own. */
  lemma EndAfterValue(v: string, rest: string, i: int)
    requires Value(v) && At(v + END_PARAMETER + rest, END_PARAMETER, i)
    ensures i >= |v|
  {
    var s := v + END_PARAMETER + rest;
    assert v + (END_PARAMETER + rest) == s;
    if i + 12 <= |v| {
      AtPrefix(v, END_PARAMETER + rest, END_PARAMETER, i);
    } else if i < |v| {
      OnlyFirstBracket(s, i, |v|);
    }
  }

  // ---------------------------------------------------------------- cutting text

  lemma SplitLong(a: string, b: string, x: string, f: string)
    requires a + b == x + f && |x| >= |a|
    ensures x == a + x[|a|..] && b == x[|a|..] + f
  {
    assert (a + b)[..|a|] == a && (x + f)[..|a|] == x[..|a|];
    assert (a + b)[|a|..] == b && (x + f)[|a|..] == x[|a|..] + f;
  }

  lemma SplitShort(a: string, b: string, x: string, f: string)
    requires a + b == x + f && |x| <= |a|
    ensures a == x + a[|x|..] && f == a[|x|..] + b
  {
    SplitLong(x, f, a, b);
  }

  // ---------------------------------------------------------------- one tag

  lemma FindGreater(s: string, from: nat, g: nat)
    requires from <= g < |s| && s[g] == '>' && forall k :: from <= k < g ==> s[k] != '>'
    ensures Find(s, ">", from) == g
  {
    assert s[g..g + 1] == ">";
    forall k | from <= k < g
      ensures !At(s, ">", k)
    {
      assert s[k..k + 1] == [s[k]];
    }
    FindIs(s, ">", from, g);
  }

  lemma Middle(a: string, b: string, c: string)
    ensures (a + (b + c))[|a|..|a| + |b|] == b
  {
  }

  lemma WholeTag(s: string, i: nat, j: nat, opener: string, w: string)
    requires w != "" && '>' !in w && j + |opener| + |w| < |s|
    requires s[j..j + |opener|] == opener && s[j + |opener|..j + |opener| + |w|] == w && s[j + |opener| + |w|] == '>'
    ensures TagFrom(s, i, j, opener) == Some(Tag(i, w, j + |opener| + |w| + 1))
  {
    var o := j + |opener|;
    forall k | o <= k < o + |w|
      ensures s[k] != '>'
    {
      assert s[k] == w[k - o];
    }
    FindGreater(s, o, o + |w|);
  }

  lemma WholeFunctionTag(c: Call, rest: string)
    requires GoodCall(c)
    ensures SearchFunction(OpeningTag(c) + rest, 0) == Some(Tag(0, c.name, |OpeningTag(c)|))
  {
    var s, j := OpeningTag(c) + rest, 1 + |c.gap|;
    GapIsSkipped(c, rest);
    Middle([BULLET] + c.gap, FUNCTION, c.name + ">" + rest);
    assert s == ([BULLET] + c.gap) + (FUNCTION + (c.name + ">" + rest));
    Middle(Opener(c), c.name, ">" + rest);
    assert s == Opener(c) + (c.name + (">" + rest));
    hide SkipSpace, TagFrom;
    WholeTag(s, 0, j, FUNCTION, c.name);
  }

  lemma GapIsSkipped(c: Call, rest: string)
    requires GoodCall(c)
    ensures var s := OpeningTag(c) + rest; s[0] == BULLET && SkipSpace(s, 1) == 1 + |c.gap|
  {
    var s, j := OpeningTag(c) + rest, 1 + |c.gap|;
    assert s[0] == BULLET && s[j] == '<';
    forall k | 1 <= k < j
      ensures IsSpace(s[k])
    {
      assert s[k] == c.gap[k - 1];
    }
  }

  lemma NoGreaterInTag(c: Call, k: nat)
    requires GoodCall(c) && k < |OpeningTag(c)| - 1
    ensures OpeningTag(c)[k] != '>' && (OpeningTag(c)[k] == BULLET <==> k == 0)
  {
    var s := OpeningTag(c);
    var g, n := 1 + |c.gap|, 1 + |c.gap| + |FUNCTION|;
    if 1 <= k < g {
      assert s[k] == c.gap[k - 1];
      assert IsSpace(s[k]);
    } else if g <= k < n {
      assert s[k] == FUNCTION[k - g];
    } else if n <= k {
      assert s[k] == c.name[k - n];
    }
  }

  lemma CutFunctionTag(c: Call, b: string, f: string)
    requires GoodCall(c) && OpeningTag(c) == b + f && f != ""
    ensures SearchFunction(b, 0).None?
  {
    var r := SearchFunction(b, 0);
    if r.Some? {
      var end := r.value.end;
      assert b[end - 1] == '>';
      assert OpeningTag(c)[end - 1] == '>';
      NoGreaterInTag(c, end - 1);
    }
  }

  lemma FirstEnd(tag: string, v: string, rest: string)
    requires Value(v)
    ensures Find(tag + (v + END_PARAMETER + rest), END_PARAMETER, |tag|) == |tag| + |v|
  {
    hide At, Value;
    var t := v + END_PARAMETER + rest;
    EndIsAt(v, rest);
    AtShift(tag, t, END_PARAMETER, |v|);
    forall i | |tag| <= i < |tag| + |v|
      ensures !At(tag + t, END_PARAMETER, i)
    {
      AtSuffix(tag, t, END_PARAMETER, i);
      if At(t, END_PARAMETER, i - |tag|) {
        EndAfterValue(v, rest, i - |tag|);
      }
    }
    FindIs(tag + t, END_PARAMETER, |tag|, |tag| + |v|);
  }

  lemma EndIsAt(v: string, rest: string)
    ensures At(v + END_PARAMETER + rest, END_PARAMETER, |v|)
  {
    Middle(v, END_PARAMETER, rest);
    assert v + (END_PARAMETER + rest) == v + END_PARAMETER + rest;
  }

  lemma ParameterTag(k: string, rest: string)
    requires k != "" && '>' !in k
    ensures SearchParameter(PARAMETER + k + ">" + rest, 0) == Some(Tag(0, k, |PARAMETER| + |k| + 1))
  {
    hide TagFrom, PARAMETER;
    var s := PARAMETER + k + ">" + rest;
    assert s == PARAMETER + (k + (">" + rest));
    assert s[0..|PARAMETER|] == PARAMETER;
    Middle(PARAMETER, k, ">" + rest);
    WholeTag(s, 0, 0, PARAMETER, k);
  }

  lemma ParameterEnds(k: string, v: string)
    ensures |Parameter(k, v)| >= 12 && At(Parameter(k, v), END_PARAMETER, |Parameter(k, v)| - 12)
  {
    var s := Parameter(k, v);
    assert s == (PARAMETER + k + ">" + v) + END_PARAMETER;
    assert s[|s| - 12..|s| - 12 + |END_PARAMETER|] == END_PARAMETER;
  }

  /** A parameter that has arrived whole is read as it stands, whatever its key ends with. */
  lemma WholeParameter(k: string, v: string, rest: string)
    requires k != "" && '>' !in k && Value(v)
    ensures ClosedParam(Parameter(k, v) + rest) == Some(ParamMatch(0, k, v, |Parameter(k, v)|))
  {
    hide Value, Find, Contains, SearchParameter, PARAMETER, END_PARAMETER, Parameter, At;
    var s, tag := Parameter(k, v) + rest, PARAMETER + k + ">";
    ParameterShape(k, v, rest);
    assert s == tag + (v + END_PARAMETER + rest);
    ParameterTag(k, v + END_PARAMETER + rest);
    FirstEnd(tag, v, rest);
    Middle(tag, v, END_PARAMETER + rest);
    assert v + (END_PARAMETER + rest) == v + END_PARAMETER + rest;
    assert ParamPattern(s) == Some(ParamMatch(0, k, v, |Parameter(k, v)|));
    assert s[0..|Parameter(k, v)|] == Parameter(k, v);
    ParameterEnds(k, v);
    ContainsAt(Parameter(k, v), END_PARAMETER, |Parameter(k, v)| - 12);
  }

  lemma ContainsAt(s: string, pat: string, i: int)
    requires At(s, pat, i)
    ensures Contains(s, pat)
  {
  }

  /** Where the closing tag of a match lies in the buffer. */
  lemma ClosedHasEnd(b: string) returns (i: int)
    requires ClosedParam(b).Some?
    ensures At(b, END_PARAMETER, i)
  {
    var m := ClosedParam(b).value;
    var piece := b[m.start..m.end];
    var k := Find(piece, END_PARAMETER, 0);
    i := m.start + k;
    AtSlice(b, m.start, m.end, END_PARAMETER, k);
  }

  /** A parameter that has not arrived whole is not closed, unless its key ends like a closing tag and
      is there already. */
  lemma CutParameter(k: string, v: string, b: string, f: string)
    requires Word(k) && Value(v) && Parameter(k, v) == b + f && f != ""
    requires EndsLikeEnd(k) ==> |b| <= |PARAMETER| + |k|
    ensures ClosedParam(b).None?
  {
    hide ClosedParam, Value, Find, END_PARAMETER, EndsLikeEnd;
    var tag := PARAMETER + k + ">";
    assert b + f == tag + (v + END_PARAMETER);
    if EndsLikeEnd(k) {
      forall j | 0 <= j < |b|
        ensures b[j] != '>'
      {
        assert b[j] == (b + f)[j] == (PARAMETER + k)[j];
      }
      NoGreaterNoClosed(b);
    } else if ClosedParam(b).Some? {
      var i := ClosedHasEnd(b);
      AtPrefix(b, f, END_PARAMETER, i);
      NoEndInTag(PARAMETER, k, v + END_PARAMETER, i);
      AtSuffix(tag, v + END_PARAMETER, END_PARAMETER, i);
      assert v + END_PARAMETER + "" == v + END_PARAMETER;
      EndAfterValue(v, "", i - |tag|);
    }
  }

  lemma NoGreaterNoClosed(b: string)
    requires '>' !in b
    ensures ClosedParam(b).None?
  {
    hide ClosedParam;
    if ClosedParam(b).Some? {
      var i := ClosedHasEnd(b);
      OnlyFirstBracket(b, i, i + 11);
    }
  }

  // ---------------------------------------------------------------- closed parameters

  /** An opening tag with a key, and a closing tag behind its start. */
  predicate OpensThenCloses(b: string, i: int, e: int) {
    0 <= i < e && At(b, PARAMETER, i) && At(b, END_PARAMETER, e) && b[i + |PARAMETER|] != '>'
  }

  lemma ClosedHas(b: string) returns (e: int)
    requires ClosedParam(b).Some?
    ensures OpensThenCloses(b, ClosedParam(b).value.start, e)
  {
    hide Find, SearchParameter, Contains;
    var m := ClosedParam(b).value;
    var tag := SearchParameter(b, 0).value;
    assert b[tag.start + |PARAMETER|..tag.end] == tag.body + ">";
    assert b[tag.start + |PARAMETER|] == (tag.body + ">")[0];
    e := EndInPiece(b, m.start, m.end);
    assert b[m.start..m.start + |PARAMETER|][1] == b[m.start + 1] == 'p';
    assert b[e..e + |END_PARAMETER|][1] == b[e + 1] == '/';
  }

  lemma EndInPiece(b: string, from: nat, to: nat) returns (e: int)
    requires from <= to <= |b| && Contains(b[from..to], END_PARAMETER)
    ensures from <= e && At(b, END_PARAMETER, e)
  {
    var k := Find(b[from..to], END_PARAMETER, 0);
    e := from + k;
    AtSlice(b, from, to, END_PARAMETER, k);
  }

  /** What is taken for a closed parameter: any opening tag that a closing tag follows. */
  lemma HasClosed(b: string, i: int, e: int)
    requires OpensThenCloses(b, i, e)
    ensures ClosedParam(b).Some? && ClosedParam(b).value.start <= i
  {
    hide Find, SearchParameter, Contains;
    OnlyFirstBracket(b, e, e + 11);
    TagBefore(b, i, e + 11);
    var tag := SearchParameter(b, 0).value;
    assert b[tag.start + |PARAMETER|..tag.end] == tag.body + ">";
    assert b[tag.end - 1] == '>';
    if e < tag.end {
      OnlyFirstBracket(b, e, tag.end - 1);
    }
    ClosesAfter(b, tag.end, e);
  }

  lemma ClosesAfter(b: string, from: nat, e: int)
    requires SearchParameter(b, 0).Some? && SearchParameter(b, 0).value.end == from && At(b, END_PARAMETER, e)
    requires from <= e || (SearchParameter(b, 0).value.start <= e && from == e + |END_PARAMETER|)
    ensures ClosedParam(b).Some? && ClosedParam(b).value.start == SearchParameter(b, 0).value.start
  {
    hide SearchParameter;
    var close := Find(b, END_PARAMETER, from);
    var m := ParamPattern(b).value;
    var at := if from <= e then close else e;
    AtSlice(b, m.start, m.end, END_PARAMETER, at - m.start);
    ContainsAt(b[m.start..m.end], END_PARAMETER, at - m.start);
  }

  lemma TagBefore(b: string, i: nat, j: nat)
    requires At(b, PARAMETER, i) && i + |PARAMETER| < j < |b| && b[j] == '>' && b[i + |PARAMETER|] != '>'
    ensures SearchParameter(b, 0).Some? && SearchParameter(b, 0).value.start <= i && SearchParameter(b, 0).value.end <= j + 1
  {
    hide SearchParameter;
    TagEndsBefore(b, i, j);
    var r := SearchParameter(b, 0);
    assert r.Some? && r.value.start <= i;
    TagEndsBefore(b, r.value.start, j);
  }

  lemma TagEndsBefore(b: string, i: nat, j: nat)
    requires i + |PARAMETER| < j < |b| && b[j] == '>'
    ensures At(b, PARAMETER, i) && b[i + |PARAMETER|] != '>' ==> TagFrom(b, i, i, PARAMETER).Some?
    ensures TagFrom(b, i, i, PARAMETER).Some? ==> TagFrom(b, i, i, PARAMETER).value.end <= j + 1
  {
    var from := i + |PARAMETER|;
    assert b[j..j + 1] == ">" && At(b, ">", j);
    assert b[from..from + 1] == [b[from]];
    assert Find(b, ">", from) <= j;
  }

  /** More text in front does not hide a closed parameter. */
  lemma ClosedLift(a: string, b: string)
    requires ClosedParam(b).Some?
    ensures ClosedParam(a + b).Some?
  {
    hide ClosedParam;
    var i := ClosedParam(b).value.start;
    var e := ClosedHas(b);
    AtShift(a, b, PARAMETER, i);
    AtShift(a, b, END_PARAMETER, e);
    HasClosed(a + b, |a| + i, |a| + e);
  }

  lemma NothingClosed()
    ensures ClosedParam("").None?
  {
    hide ClosedParam;
    if ClosedParam("").Some? {
      var e := ClosedHas("");
    }
  }

  lemma PrintUnfold(calls: seq<Call>)
    requires GoodCalls(calls)
    ensures calls == [] ==> Print(calls) == ""
    ensures calls != [] ==>
              && GoodCall(calls[0]) && GoodCalls(calls[1..])
              && Print(calls) == OpeningTag(calls[0]) + (Parameters(calls[0].params) + Print(calls[1..]))
  {
    hide Parameters, OpeningTag, GoodCall;
  }

  lemma ParameterShape(k: string, v: string, y: string)
    ensures Parameter(k, v) + y == PARAMETER + k + ">" + (v + END_PARAMETER + y)
  {
  }

  lemma ParametersUnfold(ps: seq<(string, string)>, later: string)
    requires GoodParams(ps)
    ensures ps == [] ==> Parameters(ps) + later == later
    ensures ps != [] ==>
              var (k, v) := ps[0];
              && Word(k) && Value(v) && GoodParams(ps[1..])
              && Parameters(ps) + later == Parameter(k, v) + (Parameters(ps[1..]) + later)
              && Parameters(ps) + later == PARAMETER + k + ">" + (v + END_PARAMETER + (Parameters(ps[1..]) + later))
  {
    hide Word, Value, Parameter;
    if ps != [] {
      var (k, v) := ps[0];
      ParameterShape(k, v, Parameters(ps[1..]) + later);
      assert (Parameter(k, v) + Parameters(ps[1..])) + later == Parameter(k, v) + (Parameters(ps[1..]) + later);
    }
  }

  // ---------------------------------------------------------------- positions in the stream

  /** What is still unread, counting the parser's buffer as unread. */
  datatype Position =
    | InText(text: string, calls: seq<Call>)
    | AtCall(calls: seq<Call>)
    | InCall(name: string, done: map<string, string>, params: seq<(string, string)>, calls: seq<Call>)
    | AtLastEnd(name: string, done: map<string, string>)

  predicate Good(pos: Position) {
    match pos
    case InText(text, calls) => HasNoBullet(text) && GoodCalls(calls)
    case AtCall(calls) => calls != [] && GoodCalls(calls)
    case InCall(_, _, params, calls) => GoodParams(params) && GoodCalls(calls)
    case AtLastEnd(_, _) => true
  }

  function Unread(pos: Position): string {
    match pos
    case InText(text, calls) => text + Print(calls)
    case AtCall(calls) => Print(calls)
    case InCall(_, _, params, calls) => Parameters(params) + Print(calls)
    case AtLastEnd(_, _) => END_PARAMETER
  }

  /** What should still come out. */
  function Due(pos: Position): Output {
    match pos
    case InText(text, calls) => Output(text, Meaning(calls))
    case AtCall(calls) => Output("", Meaning(calls))
    case InCall(name, done, params, calls) => Output("", [ToolUse(name, Collect(done, params))] + Meaning(calls))
    case AtLastEnd(name, done) => Output("", [ToolUse(name, done)])
  }

  /** More text than is due, and not just a blank more. */
  predicate Longer(text: string, due: string) {
    |text| > |due| && text != due + " "
  }

  /** Text that is not due, with a first character that no blank has. */
  predicate Stray(text: string) {
    text != "" && text[0] != ' '
  }

  lemma LongerBehind(a: string, x: string, y: string)
    requires Longer(x, y)
    ensures Longer(a + x, a + y)
  {
    assert (a + x)[|a|..] == x && (a + (y + " "))[|a|..] == y + " " && a + (y + " ") == a + y + " ";
  }

  lemma LongerStill(x: string, y: string, more: string)
    requires Longer(x, y)
    ensures Longer(x + more, y)
  {
    assert more == "" ==> x + more == x;
  }

  lemma StrayIsLonger(text: string, more: string)
    requires Stray(text)
    ensures Longer(text + more, "")
  {
    assert (text + more)[0] == text[0];
  }

  /** The parser is at this position, and `future` is what it has not been fed yet. */
  predicate Reads(p: Parser, pos: Position, future: string) {
    && Good(pos) && Unread(pos) == p.buffer + future
    && match pos
       case InText(_, _) => p.mode == TextMode
       case AtCall(_) => p.mode == Matching && p.buffer != ""
       case InCall(name, done, _, _) => p.mode == Parsing && p.name == name && p.params == done
       case AtLastEnd(name, done) => p.mode == Parsing && p.name == name && p.params == done
  }

  /** As `Reads`, but the parser has done all it can without more text. */
  predicate Waits(p: Parser, pos: Position, future: string) {
    && Reads(p, pos, future)
    && match pos
       case InText(_, _) => p.buffer == ""
       case AtCall(calls) => |p.buffer| < |OpeningTag(calls[0])|
       case InCall(_, _, params, _) => if params == [] then p.buffer == "" else CutShort(params[0].0, params[0].1, p.buffer)
       case AtLastEnd(_, _) => true
  }

  /** Not all of the parameter has arrived, and not even its opening tag if the key ends like a closing one. */
  predicate CutShort(k: string, v: string, b: string) {
    |b| < |Parameter(k, v)| && (EndsLikeEnd(k) ==> |b| <= |PARAMETER| + |k|)
  }

  // ---------------------------------------------------------------- dangerous buffers

  /** The text behind the n-th bullet, "" if there are fewer. */
  function Behind(n: nat, s: string): string {
    var i := Find(s, [BULLET], 0);
    if n == 0 then s else if i == -1 then "" else Behind(n - 1, s[i + 1..])
  }

  /** The text ends inside a function tag, more than MAX_TAG characters after its bullet. */
  predicate LongTag(s: string) {
    var i := RFind(s, [BULLET]);
    i != -1 && '>' !in s[i..] && |s| - i > MAX_TAG
  }

  /** No closed parameter behind a bullet other than that of the call the parser is at. */
  predicate Safe(n: nat, s: string) {
    ClosedParam(Behind(n, s)).None? && !LongTag(s)
  }

  function Ahead(pos: Position): nat {
    if pos.InCall? || pos.AtLastEnd? then 1 else 2
  }

  lemma BulletFree(s: string)
    requires HasNoBullet(s)
    ensures Find(s, [BULLET], 0) == -1 && RFind(s, [BULLET]) == -1
    ensures forall n: nat :: n > 0 ==> Safe(n, s)
  {
    forall i
      ensures !At(s, [BULLET], i)
    {
      if 0 <= i < |s| {
        assert s[i..i + 1] == [s[i]];
      }
    }
    NothingClosed();
  }

  lemma FirstBullet(a: string, b: string)
    requires HasNoBullet(a) && b != "" && b[0] == BULLET
    ensures Find(a + b, [BULLET], 0) == |a|
  {
    var s := a + b;
    assert s[|a|..|a| + 1] == [BULLET];
    forall i | 0 <= i < |a|
      ensures !At(s, [BULLET], i)
    {
      assert s[i..i + 1] == [a[i]];
    }
    FindIs(s, [BULLET], 0, |a|);
  }

  lemma RFindIs(s: string, pat: string, g: nat)
    requires At(s, pat, g) && forall k :: g < k ==> !At(s, pat, k)
    ensures RFind(s, pat) == g
  {
    var r := RFind(s, pat);
    assert 0 <= r && At(s, pat, r);
  }

  lemma BulletAt(s: string, i: int)
    ensures At(s, [BULLET], i) <==> 0 <= i < |s| && s[i] == BULLET
  {
    if 0 <= i < |s| {
      assert s[i..i + 1] == [s[i]];
    }
  }

  /** The last bullet of a + b is that of b, if it has one. */
  lemma LongTagDrop(a: string, b: string)
    requires !HasNoBullet(b)
    ensures LongTag(a + b) == LongTag(b)
  {
    LastBullet(a, b);
    var r := RFind(b, [BULLET]);
    assert (a + b)[|a| + r..] == b[r..];
  }

  lemma BehindDrop(n: nat, a: string, b: string)
    requires HasNoBullet(a) && n > 0
    ensures Behind(n, a + b) == Behind(n, b)
  {
    hide Find;
    FirstBulletOf(b);
    var i := Find(b, [BULLET], 0);
    if i == -1 {
      BulletFree(a + b);
    } else {
      FirstBullet(a + b[..i], b[i..]);
      assert (a + b[..i]) + b[i..] == a + b;
      assert (a + b)[|a| + i + 1..] == b[i + 1..];
    }
  }

  lemma FirstBulletOf(s: string)
    ensures var i := Find(s, [BULLET], 0);
            if i == -1 then HasNoBullet(s) else 0 <= i < |s| && s[i] == BULLET && HasNoBullet(s[..i])
  {
    var i := Find(s, [BULLET], 0);
    BulletAt(s, i);
    forall k | 0 <= k < if i == -1 then |s| else i
      ensures s[k] != BULLET
    {
      BulletAt(s, k);
    }
  }

  lemma SafeDrop(n: nat, a: string, b: string)
    requires HasNoBullet(a) && n > 0
    ensures Safe(n, a + b) <==> Safe(n, b)
  {
    if HasNoBullet(b) {
      BulletFree(a + b);
      BulletFree(b);
    } else {
      BehindDrop(n, a, b);
      LongTagDrop(a, b);
    }
  }

  lemma BehindFirst(n: nat, b: string)
    requires b != "" && b[0] == BULLET && n > 0
    ensures Behind(n, b) == Behind(n - 1, b[1..])
  {
    BulletAt(b, 0);
    FindIs(b, [BULLET], 0, 0);
  }

  /** Taking the function tag off the buffer. */
  lemma SafeTag(c: Call, b: string)
    requires GoodCall(c)
    ensures Safe(2, OpeningTag(c) + b) <==> Safe(1, b)
  {
    var tag := OpeningTag(c);
    var s, inner := tag + b, tag[1..];
    assert HasNoBullet(inner) by {
      forall k | 0 <= k < |inner|
        ensures inner[k] != BULLET
      {
        if k < |inner| - 1 {
          NoGreaterInTag(c, k + 1);
        }
      }
    }
    BehindFirst(2, s);
    assert s[1..] == inner + b;
    BehindDrop(1, inner, b);
    if HasNoBullet(b) {
      BulletFree(b);
      BulletAt(s, 0);
      forall k | 0 < k
        ensures !At(s, [BULLET], k)
      {
        BulletAt(s, k);
        assert k < |s| ==> s[k] == (inner + b)[k - 1];
      }
      RFindIs(s, [BULLET], 0);
      assert s[|tag| - 1] == '>';
    } else {
      LongTagDrop(tag, b);
    }
  }

  lemma {:induction false} BehindClosed(n: nat, s: string)
    requires ClosedParam(Behind(n, s)).Some?
    ensures ClosedParam(s).Some?
  {
    hide ClosedParam;
    var i := Find(s, [BULLET], 0);
    if n > 0 && i != -1 {
      BehindClosed(n - 1, s[i + 1..]);
      assert s == s[..i + 1] + s[i + 1..];
      ClosedLift(s[..i + 1], s[i + 1..]);
    } else if n > 0 {
      NothingClosed();
    }
  }

  /** At the bullet of the next call, without a closed parameter in the buffer. */
  lemma SafeAtBullet(b: string)
    requires b != "" && b[0] == BULLET && ClosedParam(b).None?
    ensures Safe(1, b) <==> Safe(2, b)
  {
    hide ClosedParam;
    if ClosedParam(Behind(1, b)).Some? {
      BehindClosed(1, b);
    }
    if ClosedParam(Behind(2, b)).Some? {
      BehindClosed(2, b);
    }
  }

  lemma TailHasClosed(s: string)
    requires s != "" && s[0] == BULLET && ClosedParam(s).Some?
    ensures ClosedParam(s[1..]).Some?
  {
    hide ClosedParam;
    var i := ClosedParam(s).value.start;
    var e := ClosedHas(s);
    assert s[i..i + |PARAMETER|][0] == s[i];
    assert s == s[..1] + s[1..];
    AtSuffix(s[..1], s[1..], PARAMETER, i);
    AtSuffix(s[..1], s[1..], END_PARAMETER, e);
    HasClosed(s[1..], i - 1, e - 1);
  }

  /** A closed parameter behind the bullet of a later call is taken for one of the call before, and the
      text in front of it is shown. */
  lemma LaterCallSwallowed(p: Parser)
    requires p.buffer != "" && p.buffer[0] == BULLET && ClosedParam(p.buffer).Some?
    ensures !Safe(1, p.buffer) && ExtractParams(p).1 != "" && ExtractParams(p).1[0] == BULLET
  {
    hide ClosedParam;
    var b := p.buffer;
    var i := ClosedParam(b).value.start;
    var e := ClosedHas(b);
    assert b[i..i + |PARAMETER|][0] == b[i];
    BehindFirst(1, b);
    assert Behind(0, b[1..]) == b[1..];
    TailHasClosed(b);
  }

  // ---------------------------------------------------------------- keys that end like a closing tag

  /** A chunk that ends `left` characters before the end of all text ends inside this parameter: behind
      the '>' of a key that ends like a closing tag, and before the end of its own closing tag. `after`
      characters follow the parameter. With nothing behind it, the place right before its closing tag
      does no harm. */
  predicate Exposed(k: string, v: string, after: nat, left: nat) {
    EndsLikeEnd(k) && after < left <= after + |v| + |END_PARAMETER| && !(after == 0 && left == |END_PARAMETER|)
  }

  predicate ExposedIn(ps: seq<(string, string)>, after: nat, left: nat) {
    ps != [] && (Exposed(ps[0].0, ps[0].1, |Parameters(ps[1..])| + after, left) || ExposedIn(ps[1..], after, left))
  }

  predicate CutsOpen(calls: seq<Call>, left: nat) {
    calls != [] && (ExposedIn(calls[0].params, |Print(calls[1..])|, left) || CutsOpen(calls[1..], left))
  }

  /** The same, for what is still unread. */
  predicate Zone(pos: Position, left: nat) {
    match pos
    case InText(_, calls) => CutsOpen(calls, left)
    case AtCall(calls) => CutsOpen(calls, left)
    case InCall(_, _, params, calls) => ExposedIn(params, |Print(calls)|, left) || CutsOpen(calls, left)
    case AtLastEnd(_, _) => false
  }

  /** The values under such keys hold no opening tag. */
  predicate PlainParams(ps: seq<(string, string)>) {
    forall i :: 0 <= i < |ps| && EndsLikeEnd(ps[i].0) ==> !Contains(ps[i].1, PARAMETER)
  }

  predicate PlainCalls(calls: seq<Call>) {
    forall i :: 0 <= i < |calls| ==> PlainParams(calls[i].params)
  }

  predicate Plain(pos: Position) {
    match pos
    case InText(_, calls) => PlainCalls(calls)
    case AtCall(calls) => PlainCalls(calls)
    case InCall(_, _, params, calls) => PlainParams(params) && PlainCalls(calls)
    case AtLastEnd(_, _) => true
  }

  /** Going from one position to a later one, where `left` characters are still to come. */
  predicate Follows(pos: Position, q: Position, left: nat) {
    q.AtLastEnd? || ((Plain(pos) ==> Plain(q)) && forall m: nat :: m <= left ==> (Zone(pos, m) <==> Zone(q, m)))
  }

  lemma EndFollows(pos: Position, q: Position, left: nat)
    requires q.AtLastEnd?
    ensures Follows(pos, q, left) && !Zone(q, left)
  {
  }

  lemma FollowsTrans(pos: Position, q: Position, r: Position, left: nat)
    requires Follows(pos, q, left) && Follows(q, r, left) && (q.AtLastEnd? ==> r.AtLastEnd?)
    ensures Follows(pos, r, left)
  {
  }

  lemma SameFollows(pos: Position, left: nat)
    ensures Follows(pos, pos, left)
  {
  }

  lemma {:induction false} ExposedInside(ps: seq<(string, string)>, after: nat, left: nat)
    requires ExposedIn(ps, after, left)
    ensures ps != [] && after < left <= |Parameters(ps)| + after - |PARAMETER| && |Parameters(ps)| > |END_PARAMETER|
  {
    if !Exposed(ps[0].0, ps[0].1, |Parameters(ps[1..])| + after, left) {
      ExposedInside(ps[1..], after, left);
    }
  }

  lemma {:induction false} CutsInside(calls: seq<Call>, left: nat)
    requires CutsOpen(calls, left)
    ensures calls != [] && left < |Print(calls)| && left + |OpeningTag(calls[0])| <= |Print(calls)| && |Print(calls)| > |END_PARAMETER| + |OpeningTag(calls[0])|
  {
    hide OpeningTag;
    var c, later := calls[0], Print(calls[1..]);
    assert Print(calls) == OpeningTag(c) + (Parameters(c.params) + later);
    assert |OpeningTag(c)| > 0 by { TagIsLong(c); }
    if ExposedIn(c.params, |later|, left) {
      ExposedInside(c.params, |later|, left);
    } else {
      CutsInside(calls[1..], left);
    }
  }

  lemma TagIsLong(c: Call)
    ensures |OpeningTag(c)| > 0
  {
  }

  /** What has been read keeps the rest in its place. */
  lemma ParamsFollow(name: string, done: map<string, string>, done': map<string, string>, ps: seq<(string, string)>, calls: seq<Call>, left: nat)
    requires ps != [] && left <= |Parameters(ps[1..])| + |Print(calls)|
    ensures Follows(InCall(name, done, ps, calls), InCall(name, done', ps[1..], calls), left)
  {
    hide Parameters, Print, CutsOpen, PlainCalls, EndsLikeEnd, Contains;
    assert forall i :: 0 <= i < |ps[1..]| ==> ps[1..][i] == ps[i + 1];
  }

  lemma CallFollows(calls: seq<Call>, left: nat)
    requires calls != []
    ensures Follows(AtCall(calls), InCall(calls[0].name, map[], calls[0].params, calls[1..]), left)
  {
    hide PlainParams, ExposedIn;
    assert forall i :: 0 <= i < |calls[1..]| ==> calls[1..][i] == calls[i + 1];
  }

  // ---------------------------------------------------------------- one step of the parser

  lemma StepText(p: Parser, pos: Position, future: string) returns (q: Position)
    requires Reads(p, pos, future) && pos.InText? && (HasNoBullet(p.buffer) ==> NoControl(p.buffer))
    ensures var st := TextStep(p);
            && Reads(st.p, q, future) && Due(pos) == st.out.Then(Due(q)) && Follows(pos, q, |future|)
            && (st.Stop? ==> Waits(st.p, q, future) && q.InText? && HasNoBullet(p.buffer) && Safe(2, p.buffer) && !Zone(pos, |future|))
            && (st.Go? ==> q.AtCall? && !HasNoBullet(st.p.buffer) && (Safe(2, p.buffer) <==> Safe(2, st.p.buffer)))
  {
    hide Safe, CutsOpen, PlainCalls, Find, SafePrefix, OpeningTag, Parameters, GoodCall;
    var b, text, calls := p.buffer, pos.text, pos.calls;
    if calls != [] {
      BulletOpens(calls);
    }
    BulletSide(text, Print(calls), b, future);
    if HasNoBullet(b) {
      BulletFree(b);
      NoControlToHold(b);
      SplitShort(text, Print(calls), b, future);
      q := InText(text[|b|..], calls);
      assert b + text[|b|..] == text;
      if CutsOpen(calls, |future|) {
        CutsInside(calls, |future|);
      }
    } else {
      SplitLong(text, Print(calls), b, future);
      var b1 := b[|text|..];
      PrintUnfold(calls);
      assert b1[0] == Print(calls)[0];
      BulletOpens(calls);
      FirstBullet(text, b1);
      SafeDrop(2, text, b1);
      q := AtCall(calls);
      assert text + "" == text;
    }
  }

  lemma BulletSide(text: string, rest: string, b: string, f: string)
    requires HasNoBullet(text) && text + rest == b + f && (rest != "" ==> rest[0] == BULLET)
    ensures HasNoBullet(b) <==> |b| <= |text|
  {
    if |b| <= |text| {
      SplitShort(text, rest, b, f);
    } else {
      SplitLong(text, rest, b, f);
      assert b[|text|] == rest[0];
    }
  }

  lemma BulletOpens(calls: seq<Call>)
    requires calls != []
    ensures Print(calls) != "" && Print(calls)[0] == BULLET
  {
  }

  /** The buffer reaches MAX_TAG inside the tag exactly when the chunking is unsafe here. */
  lemma CutTagSafety(c: Call, b: string, f: string)
    requires GoodCall(c) && OpeningTag(c) == b + f && b != "" && f != ""
    ensures Safe(2, b) <==> |b| <= MAX_TAG
  {
    var inner := b[1..];
    forall k | 0 <= k < |b|
      ensures b[k] != '>' && (b[k] == BULLET <==> k == 0)
    {
      assert b[k] == OpeningTag(c)[k];
      NoGreaterInTag(c, k);
    }
    BehindFirst(2, b);
    BulletFree(inner);
    forall k | 0 < k
      ensures !At(b, [BULLET], k)
    {
      BulletAt(b, k);
    }
    BulletAt(b, 0);
    RFindIs(b, [BULLET], 0);
    assert b[0..] == b;
    assert Behind(1, inner) == "";
  }

  lemma StepMatch(p: Parser, pos: Position, future: string) returns (q: Position)
    requires Reads(p, pos, future) && pos.AtCall?
    ensures var st := MatchStep(p);
            if st.Go? && st.p.mode == TextMode then !Safe(2, p.buffer) && Stray(st.out.text)
            else
              && Reads(st.p, q, future) && Due(pos) == st.out.Then(Due(q)) && Follows(pos, q, |future|)
              && (st.Stop? ==> Waits(st.p, q, future) && q.AtCall? && Safe(2, p.buffer) && !Zone(pos, |future|))
              && (st.Go? ==> q.InCall? && (Safe(2, p.buffer) <==> Safe(1, st.p.buffer))
                             && !HasNoBullet(p.buffer) && (HasNoBullet(st.p.buffer) ==> TagDone(p.buffer)))
  {
    hide Safe, SearchFunction, OpeningTag, Parameters, GoodCall, GoodCalls, Word, Print, TagDone, Collect, Plain, Zone, Follows;
    if |p.buffer| >= |OpeningTag(pos.calls[0])| {
      q := MatchWhole(p, pos, future);
    } else {
      q := pos;
      MatchCut(p, pos, future);
    }
  }

  /** The whole tag is there: on to the parameters. */
  lemma MatchWhole(p: Parser, pos: Position, future: string) returns (q: Position)
    requires Reads(p, pos, future) && pos.AtCall? && |p.buffer| >= |OpeningTag(pos.calls[0])|
    ensures var st := MatchStep(p);
            && st.Go? && st.out == EMPTY && Reads(st.p, q, future) && Due(pos) == st.out.Then(Due(q)) && Follows(pos, q, |future|)
            && q.InCall? && (Safe(2, p.buffer) <==> Safe(1, st.p.buffer))
            && !HasNoBullet(p.buffer) && (HasNoBullet(st.p.buffer) ==> TagDone(p.buffer))
  {
    hide Safe, SearchFunction, OpeningTag, Parameters, GoodCall, GoodCalls, Word, Print, TagDone, Collect, Plain, Zone, Follows;
    var b, calls := p.buffer, pos.calls;
    var c, tag := calls[0], OpeningTag(calls[0]);
    var rest := Parameters(c.params) + Print(calls[1..]);
    PrintUnfold(calls);
    NonEmptyIsBullet(calls, b, future);
    SplitLong(tag, rest, b, future);
    var b1 := b[|tag|..];
    WholeFunctionTag(c, b1);
    SafeTag(c, b1);
    if HasNoBullet(b1) {
      TagIsDone(c, b1);
    }
    StripName(c);
    CallFollows(calls, |future|);
    q := InCall(c.name, map[], c.params, calls[1..]);
    assert Due(pos) == EMPTY.Then(Due(q));
  }

  /** Only a part of the tag is there: wait, or give the bullet up. */
  lemma MatchCut(p: Parser, pos: Position, future: string)
    requires Reads(p, pos, future) && pos.AtCall? && |p.buffer| < |OpeningTag(pos.calls[0])|
    ensures var st := MatchStep(p);
            if st.Go? then st.p.mode == TextMode && !Safe(2, p.buffer) && Stray(st.out.text)
            else st == Stop(p, EMPTY) && Waits(p, pos, future) && Safe(2, p.buffer)
    ensures !Zone(pos, |future|) && Follows(pos, pos, |future|) && Due(pos) == EMPTY.Then(Due(pos))
  {
    hide Safe, SearchFunction, OpeningTag, Parameters, GoodCall, GoodCalls, Word, Print, Collect, Plain, Zone, Follows;
    var b, calls := p.buffer, pos.calls;
    var c, tag := calls[0], OpeningTag(calls[0]);
    PrintUnfold(calls);
    NonEmptyIsBullet(calls, b, future);
    assert b[..1][0] == BULLET;
    SplitShort(tag, Parameters(c.params) + Print(calls[1..]), b, future);
    CutFunctionTag(c, b, tag[|b|..]);
    CutTagSafety(c, b, tag[|b|..]);
    SameFollows(pos, |future|);
    NotInTag(pos, |future|);
    ThenEmpty(Due(pos));
  }

  lemma NotInTag(pos: Position, left: nat)
    requires pos.AtCall? && pos.calls != [] && left > |Print(pos.calls)| - |OpeningTag(pos.calls[0])|
    ensures !Zone(pos, left)
  {
    hide Print, OpeningTag;
    if CutsOpen(pos.calls, left) {
      CutsInside(pos.calls, left);
    }
  }

  lemma StripName(c: Call)
    requires GoodCall(c)
    ensures Strip(c.name) == c.name && GoodParams(c.params)
  {
  }

  /** A parameter has been closed before all of it arrived; what is left of it is still to come. */
  predicate Overcut(r: Parser, q: Position, future: string) {
    && q.InCall? && q.params != [] && Good(q) && r.mode == Parsing && r.name == q.name
    && (r.buffer == "" || r.buffer == "\n")
    && var (k, v) := q.params[0];
       var whole, rest := v + END_PARAMETER, Parameters(q.params[1..]) + Print(q.calls);
       var n := |whole| + |rest| - |r.buffer + future|;
       && EndsLikeEnd(k) && 0 <= n < |whole| && r.buffer + future == whole[n..] + rest && r.params == q.done[k := Strip(whole[..n])]
       && (rest == "" && r.buffer == "" ==> n != |v|)
  }

  /** Taking the closed parameters off the buffer stays within the call, unless a later call's
      parameter is taken along; then the text in front of it is shown. A parameter whose key ends like a
      closing tag is closed too early when the buffer ends inside it. */
  lemma {:induction false} ExtractReads(p: Parser, pos: Position, future: string) returns (q: Position)
    requires Reads(p, pos, future) && pos.InCall?
    ensures var (r, text) := ExtractParams(p);
            if text != "" then !Safe(1, p.buffer) && Stray(text)
            else
              && Due(pos) == Due(q) && Follows(pos, q, |future|) && (Safe(1, p.buffer) <==> Safe(1, r.buffer))
              && (HasNoBullet(p.buffer) <==> HasNoBullet(r.buffer))
              && if q.InCall? && q.params != [] && Zone(q, |future|) then Overcut(r, q, future) && Zone(pos, |future|)
                 else
                   && Reads(r, q, future) && (q.InCall? || (q.AtLastEnd? && r.buffer == "" && !Zone(pos, |future|)))
                   && (q.InCall? && q.params != [] ==> CutShort(q.params[0].0, q.params[0].1, r.buffer))
    decreases |pos.params|
  {
    hide Safe, ClosedParam, Contains, Word, Value, Parameter, OpeningTag, GoodCalls, Follows, Zone, CutShort, Overcut;
    var b, ps := p.buffer, pos.params;
    ParametersUnfold(ps, Print(pos.calls));
    SameFollows(pos, |future|);
    if ps == [] {
      q := pos;
      if ClosedParam(b).Some? {
        NonEmptyIsBullet(pos.calls, b, future);
        LaterCallSwallowed(p);
      }
    } else {
      var (k, v) := ps[0];
      var whole, rest := Parameter(k, v), Parameters(ps[1..]) + Print(pos.calls);
      if |b| >= |whole| {
        SplitLong(whole, rest, b, future);
        var b1 := b[|whole|..];
        WordFacts(k, v);
        WholeParameter(k, v, b1);
        SafeDrop(1, whole, b1);
        BulletFreeJoin(whole, b1);
        var p1 := p.(buffer := b1, params := p.params[k := v]);
        var next := InCall(pos.name, pos.done[k := v], ps[1..], pos.calls);
        ParamsFollow(pos.name, pos.done, pos.done[k := v], ps, pos.calls, |future|);
        q := ExtractReads(p1, next, future);
        if ExtractParams(p1).1 == "" {
          FollowsTrans(pos, next, q, |future|);
          SameZone(pos, next, |future|);
        }
        assert b[..0] == "";
      } else {
        q := CutReads(p, pos, future);
      }
    }
  }

  lemma SameZone(pos: Position, q: Position, left: nat)
    requires Follows(pos, q, left) && !q.AtLastEnd?
    ensures Zone(pos, left) <==> Zone(q, left)
  {
  }

  /** The buffer ends inside the next parameter. */
  lemma CutReads(p: Parser, pos: Position, future: string) returns (q: Position)
    requires Reads(p, pos, future) && pos.InCall? && pos.params != []
    requires |p.buffer| < |Parameter(pos.params[0].0, pos.params[0].1)|
    ensures var (r, text) := ExtractParams(p);
            && text == "" && Due(pos) == Due(q) && Follows(pos, q, |future|) && (Safe(1, p.buffer) <==> Safe(1, r.buffer))
            && HasNoBullet(p.buffer) && HasNoBullet(r.buffer)
            && if q.InCall? && q.params != [] && Zone(q, |future|) then Overcut(r, q, future) && Zone(pos, |future|)
               else
                 && Reads(r, q, future) && (q.InCall? || (q.AtLastEnd? && r.buffer == "" && !Zone(pos, |future|)))
                 && (q.InCall? && q.params != [] ==> CutShort(q.params[0].0, q.params[0].1, r.buffer))
  {
    hide Safe, ClosedParam, Contains, Word, Value, Parameter, OpeningTag, GoodCalls, Follows, Zone, CutShort, Overcut, HasNoBullet;
    var b, ps := p.buffer, pos.params;
    var (k, v) := ps[0];
    var whole, rest := Parameter(k, v), Parameters(ps[1..]) + Print(pos.calls);
    ParametersUnfold(ps, Print(pos.calls));
    SameFollows(pos, |future|);
    SplitShort(whole, rest, b, future);
    CutIsBulletFree(k, v, b, whole[|b|..]);
    BulletFree(b);
    ZoneHere(pos, |future|);
    q := pos;
    if CutShort(k, v, b) {
      CutParameter(k, v, b, whole[|b|..]) by { CutShortMeans(k, v, b); }
      NotExposed(k, v, b, |rest|, |future|);
    } else {
      q := CutsEarly(p, pos, future);
      BulletFree(ExtractParams(p).0.buffer);
      if q.AtLastEnd? {
        EndFollows(pos, q, |future|);
      }
    }
  }

  lemma CutShortMeans(k: string, v: string, b: string)
    requires CutShort(k, v, b)
    ensures EndsLikeEnd(k) ==> |b| <= |PARAMETER| + |k|
  {
  }

  lemma NotExposed(k: string, v: string, b: string, after: nat, left: nat)
    requires CutShort(k, v, b) && |b| + left == |Parameter(k, v)| + after
    ensures !Exposed(k, v, after, left)
  {
  }

  /** With the next parameter not read, the end of the buffer can only lie in that one. */
  lemma ZoneHere(pos: Position, left: nat)
    requires pos.InCall? && pos.params != [] && left > |Parameters(pos.params[1..])| + |Print(pos.calls)|
    ensures Zone(pos, left) <==> Exposed(pos.params[0].0, pos.params[0].1, |Parameters(pos.params[1..]) + Print(pos.calls)|, left)
  {
    hide Parameters, Print, Exposed;
    if ExposedIn(pos.params[1..], |Print(pos.calls)|, left) {
      ExposedInside(pos.params[1..], |Print(pos.calls)|, left);
    }
    if CutsOpen(pos.calls, left) {
      CutsInside(pos.calls, left);
    }
  }

  lemma LikeEnd(k: string)
    requires EndsLikeEnd(k)
    ensures At(k + ">", END_PARAMETER, |k| - 11)
  {
    var s := k + ">";
    assert s[|k| - 11..|k| + 1] == k[|k| - 11..] + ">";
    assert END_PARAMETER == END_PARAMETER[..11] + ">";
  }

  /** What is taken for the value when a key ends like a closing tag: all that there is. */
  lemma ClosesEarly(k: string, v: string, y: string, z: string) returns (n: nat)
    requires k != "" && '>' !in k && EndsLikeEnd(k) && Value(v) && y + z == v + END_PARAMETER && z != ""
    ensures n <= |y| && (y[n..] == "" || y[n..] == "\n") && (y != "" && y[|y| - 1] != '\n' ==> n == |y|)
    ensures ClosedParam(PARAMETER + k + ">" + y) == Some(ParamMatch(0, k, y[..n], |PARAMETER| + |k| + 1 + n))
  {
    hide PARAMETER, SearchParameter, Contains, Value, Find, EndsLikeEnd, At;
    var tag := PARAMETER + k + ">";
    var s := tag + y;
    n := if y != "" && y[|y| - 1] == '\n' then |y| - 1 else |y|;
    ParameterTag(k, y);
    NoEndYet(v, y, z);
    NoEndBehind(tag, y);
    assert s[|tag|..|tag| + n] == y[..n];
    assert ParamPattern(s) == Some(ParamMatch(0, k, y[..n], |tag| + n));
    EndInKey(k, y[..n]);
    assert s[0..|tag| + n] == tag + y[..n];
  }

  lemma EndInKey(k: string, rest: string)
    requires EndsLikeEnd(k)
    ensures Contains(PARAMETER + k + ">" + rest, END_PARAMETER)
  {
    hide Contains;
    var tag := PARAMETER + k + ">";
    LikeEnd(k);
    AtShift(PARAMETER, k + ">", END_PARAMETER, |k| - 11);
    assert tag == PARAMETER + (k + ">");
    AtPrefix(tag, rest, END_PARAMETER, |PARAMETER| + |k| - 11);
    ContainsAt(tag + rest, END_PARAMETER, |PARAMETER| + |k| - 11);
  }

  lemma NoEndYet(v: string, y: string, z: string)
    requires Value(v) && y + z == v + END_PARAMETER && z != ""
    ensures forall i :: !At(y, END_PARAMETER, i)
  {
    hide Value;
    forall i
      ensures !At(y, END_PARAMETER, i)
    {
      if At(y, END_PARAMETER, i) {
        AtPrefix(y, z, END_PARAMETER, i);
        assert v + END_PARAMETER + "" == v + END_PARAMETER;
        EndAfterValue(v, "", i);
      }
    }
  }

  lemma NoEndBehind(tag: string, y: string)
    requires forall i :: !At(y, END_PARAMETER, i)
    ensures Find(tag + y, END_PARAMETER, |tag|) == -1
  {
    forall i | |tag| <= i
      ensures !At(tag + y, END_PARAMETER, i)
    {
      AtSuffix(tag, y, END_PARAMETER, i);
    }
  }

  /** A closed parameter at the front is taken, and no other. */
  lemma TakesOne(p: Parser, m: ParamMatch)
    requires ClosedParam(p.buffer) == Some(m) && m.start == 0 && ClosedParam(p.buffer[m.end..]).None?
    ensures ExtractParams(p) == (p.(buffer := p.buffer[m.end..], params := p.params[Strip(m.key) := Strip(m.value)]), "")
  {
    hide ClosedParam, Strip;
    var r := p.(buffer := p.buffer[m.end..], params := p.params[Strip(m.key) := Strip(m.value)]);
    assert ExtractParams(r) == (r, "") && p.buffer[..0] + "" == "";
  }

  lemma WordIsKey(k: string)
    requires Word(k)
    ensures k != "" && '>' !in k && Strip(k) == k
  {
  }

  /** Its parameter is taken off the buffer with that value. */
  lemma TakesEarly(p: Parser, k: string, v: string, y: string, z: string) returns (n: nat)
    requires Word(k) && EndsLikeEnd(k) && Value(v) && y + z == v + END_PARAMETER && z != "" && p.buffer == PARAMETER + k + ">" + y
    ensures n <= |y| && (y[n..] == "" || y[n..] == "\n") && (y != "" && y[|y| - 1] != '\n' ==> n == |y|)
    ensures ExtractParams(p) == (p.(buffer := y[n..], params := p.params[k := Strip(y[..n])]), "")
  {
    hide ClosedParam, ExtractParams, Word, Value, EndsLikeEnd, Strip, HasNoBullet;
    WordIsKey(k);
    n := ClosesEarly(k, v, y, z);
    var end := |PARAMETER| + |k| + 1 + n;
    assert p.buffer[end..] == y[n..];
    ShortIsOpen(y[n..]);
    TakesOne(p, ParamMatch(0, k, y[..n], end));
  }

  /** A parameter is closed before all of it has arrived. If all of its value is there and nothing else
      follows, that does no harm. */
  lemma CutsEarly(p: Parser, pos: Position, future: string) returns (q: Position)
    requires Reads(p, pos, future) && pos.InCall? && pos.params != []
    requires |p.buffer| < |Parameter(pos.params[0].0, pos.params[0].1)| && !CutShort(pos.params[0].0, pos.params[0].1, p.buffer)
    ensures var (r, text) := ExtractParams(p);
            && text == "" && Due(pos) == Due(q) && HasNoBullet(r.buffer)
            && if Exposed(pos.params[0].0, pos.params[0].1, |Parameters(pos.params[1..]) + Print(pos.calls)|, |future|)
               then q == pos && Overcut(r, q, future)
               else q.AtLastEnd? && r.buffer == "" && Reads(r, q, future)
  {
    hide ExtractParams, Value, EndsLikeEnd, Word, GoodCalls, HasNoBullet, Strip, Print, Parameters, Overcut, Due;
    var b, ps := p.buffer, pos.params;
    var (k, v) := ps[0];
    var tag, whole, rest := PARAMETER + k + ">", v + END_PARAMETER, Parameters(ps[1..]) + Print(pos.calls);
    ParametersUnfold(ps, Print(pos.calls));
    assert Unread(pos) == tag + (whole + rest);
    SplitLong(tag, whole + rest, b, future);
    var y := b[|tag|..];
    SplitShort(whole, rest, y, future);
    var z := whole[|y|..];
    var n := TakesEarly(p, k, v, y, z);
    ShortIsOpen(y[n..]);
    q := pos;
    assert y[..n] == whole[..n] && y[n..] + future == whole[n..] + rest;
    if rest == "" && z == END_PARAMETER {
      assert y == v;
      q := HarmlessCut(pos, n);
      assert y[..n] == v;
    } else {
      OvercutThere(ExtractParams(p).0, pos, future, n);
    }
  }

  lemma HarmlessCut(pos: Position, n: nat) returns (q: Position)
    requires pos.InCall? && Good(pos) && pos.params != [] && Parameters(pos.params[1..]) + Print(pos.calls) == ""
    requires var v := pos.params[0].1; n <= |v| && (v[n..] == "" || v[n..] == "\n") && (v != "" && v[|v| - 1] != '\n' ==> n == |v|)
    ensures var (k, v) := pos.params[0];
            n == |v| && q == AtLastEnd(pos.name, pos.done[k := v]) && Due(q) == Due(pos) && Strip(v) == v
  {
    var (k, v) := pos.params[0];
    assert Value(v);
    if v != "" {
      LastOfValue(v);
    }
    NothingLeft(pos.params[1..], pos.calls);
    CollectNothing(pos.done[k := v]);
    q := AtLastEnd(pos.name, pos.done[k := v]);
  }

  lemma OvercutThere(r: Parser, pos: Position, future: string, n: nat)
    requires pos.InCall? && Good(pos) && pos.params != [] && r.mode == Parsing && r.name == pos.name && (r.buffer == "" || r.buffer == "\n")
    requires var (k, v) := pos.params[0];
             var whole, rest := v + END_PARAMETER, Parameters(pos.params[1..]) + Print(pos.calls);
             && EndsLikeEnd(k) && n < |whole| && r.buffer + future == whole[n..] + rest && r.params == pos.done[k := Strip(whole[..n])]
             && (rest == "" ==> r.buffer == "\n" || |future| != |END_PARAMETER|)
    ensures Overcut(r, pos, future)
  {
  }

  lemma ShortIsOpen(s: string)
    requires s == "" || s == "\n"
    ensures ClosedParam(s).None? && HasNoBullet(s)
  {
    NoGreaterNoClosed(s);
  }

  lemma LastOfValue(v: string)
    requires Value(v) && v != ""
    ensures !IsSpace(v[|v| - 1]) && !IsSpace(v[0])
  {
    StripIsShorter(v[1..]);
    StripIsShorter(v[..|v| - 1]);
  }

  lemma {:induction false} StripIsShorter(s: string)
    ensures |Strip(s)| <= |s|
  {
    if s != "" && IsSpace(s[0]) {
      StripIsShorter(s[1..]);
    } else if s != "" && IsSpace(s[|s| - 1]) {
      StripIsShorter(s[..|s| - 1]);
    }
  }

  lemma NothingLeft(ps: seq<(string, string)>, calls: seq<Call>)
    requires Parameters(ps) + Print(calls) == ""
    ensures ps == [] && calls == []
  {
    if calls != [] {
      BulletOpens(calls);
    }
  }

  lemma BulletFreeJoin(a: string, b: string)
    requires HasNoBullet(a)
    ensures HasNoBullet(a + b) <==> HasNoBullet(b)
  {
    if HasNoBullet(a + b) {
      forall i | 0 <= i < |b|
        ensures b[i] != BULLET
      {
        assert b[i] == (a + b)[|a| + i];
      }
    }
  }

  lemma WordFacts(k: string, v: string)
    requires Word(k) && Value(v)
    ensures k != "" && '>' !in k && Strip(k) == k && Strip(v) == v && HasNoBullet(Parameter(k, v))
  {
    hide Strip, Contains, EndsLikeEnd;
    var s := Parameter(k, v);
    forall i | 0 <= i < |s|
      ensures s[i] != BULLET
    {
      var n := |PARAMETER| + |k|;
      if i < |PARAMETER| {
        assert s[i] == PARAMETER[i];
      } else if i < n {
        assert s[i] == k[i - |PARAMETER|];
      } else if n < i <= n + |v| {
        assert s[i] == v[i - n - 1];
      } else if i > n {
        assert s[i] == END_PARAMETER[i - n - 1 - |v|];
      }
    }
  }

  lemma NonEmptyIsBullet(calls: seq<Call>, b: string, f: string)
    requires Print(calls) == b + f && b != ""
    ensures calls != [] && b[0] == BULLET
  {
    BulletOpens(calls);
    assert b[0] == Print(calls)[0];
  }

  lemma StepParams(p: Parser, pos: Position, future: string) returns (q: Position)
    requires Reads(p, pos, future) && pos.InCall?
    ensures var st := ParamStep(p);
            if st.out.text != "" then Stray(st.out.text) && (!Safe(1, p.buffer) || Zone(pos, |future|))
            else
              && Due(pos) == st.out.Then(Due(q)) && Follows(pos, q, |future|)
              && (st.Stop? ==> HasNoBullet(p.buffer) && Safe(1, p.buffer)
                               && if Zone(pos, |future|) then Overcut(st.p, q, future) && st.p.buffer == ""
                                  else Waits(st.p, q, future) && (q.InCall? || q.AtLastEnd?))
              && (st.Go? ==> q.InText? && Reads(st.p, q, future) && !HasNoBullet(st.p.buffer) && (Safe(1, p.buffer) <==> Safe(2, st.p.buffer)))
  {
    hide Safe, ExtractParams, ParamStep, ClosedParam, Contains, Zone, Follows, Overcut, Waits, Reads, CutShort, Find, Strip, Due, HasNoBullet;
    var (r, text) := ExtractParams(p);
    var here := ExtractReads(p, pos, future);
    q := here;
    ThenEmpty(Due(pos));
    ParamStepOn(p);
    if text == "" {
      if here.InCall? && here.params != [] && Zone(here, |future|) {
        OvercutStops(r, here, future);
      } else if here.InCall? && here.params == [] {
        SameZone(pos, here, |future|);
        q := LeaveCall(r, here, future);
        FollowsTrans(pos, here, q, |future|);
      } else {
        StaysInside(r, here, future);
        if here.InCall? {
          SameZone(pos, here, |future|);
        }
      }
    }
  }

  lemma ParamStepOn(p: Parser)
    ensures var (r, text) := ExtractParams(p);
            if text != "" then text <= ParamStep(p).out.text
            else
              && (Find(r.buffer, [BULLET], 0) == 0 ==>
                    !HasNoBullet(r.buffer) && ParamStep(p) == Go(r.(mode := TextMode), Output("", [ToolUse(r.name, r.params)])))
              && (HasNoBullet(r.buffer) && (r.buffer == "" || "<" <= Strip(r.buffer)) ==> ParamStep(p) == Stop(r, EMPTY))
              && (r.buffer == "\n" ==> ParamStep(p).out.text == "\n")
  {
    hide ExtractParams, Strip;
    var r := ExtractParams(p).0;
    if HasNoBullet(r.buffer) {
      BulletFree(r.buffer);
    } else {
      var i :| 0 <= i < |r.buffer| && r.buffer[i] == BULLET;
      BulletAt(r.buffer, i);
    }
    assert r.buffer[..0] == "" && r.buffer[0..] == r.buffer;
    if r.buffer == "\n" {
      NewlineStrips();
    }
  }

  lemma NewlineStrips()
    ensures Strip("\n") == "" && !Contains("\n", PARAMETER)
  {
    assert Strip("\n") == Strip("");
  }

  lemma OvercutStops(r: Parser, q: Position, future: string)
    requires Overcut(r, q, future)
    ensures HasNoBullet(r.buffer) && (r.buffer == "" || r.buffer == "\n") && Safe(1, r.buffer)
  {
    ShortIsOpen(r.buffer);
    BulletFree(r.buffer);
  }

  /** The call has no parameter left: wait, or go on to the next call. */
  lemma LeaveCall(r: Parser, here: Position, future: string) returns (q: Position)
    requires Reads(r, here, future) && here.InCall? && here.params == [] && ClosedParam(r.buffer).None?
    ensures if r.buffer == "" then q == here && Waits(r, q, future) && !Zone(here, |future|) && HasNoBullet(r.buffer) && Follows(here, q, |future|) && Safe(1, r.buffer)
            else
              && Find(r.buffer, [BULLET], 0) == 0 && q == InText("", here.calls) && Reads(r.(mode := TextMode), q, future)
              && Due(here) == Output("", [ToolUse(r.name, r.params)]).Then(Due(q))
              && Follows(here, q, |future|) && (Safe(1, r.buffer) <==> Safe(2, r.buffer))
  {
    hide Safe, ClosedParam, Print, GoodCalls, PlainCalls, CutsOpen, Collect;
    q := here;
    if r.buffer == "" {
      BulletFree(r.buffer);
      if CutsOpen(here.calls, |future|) {
        CutsInside(here.calls, |future|);
      }
    } else {
      NonEmptyIsBullet(here.calls, r.buffer, future);
      assert "" + r.buffer == r.buffer;
      FirstBullet("", r.buffer);
      SafeAtBullet(r.buffer);
      q := InText("", here.calls);
      assert "" + Print(here.calls) == Print(here.calls);
      CollectNothing(here.done);
    }
  }

  /** The call is not over. */
  lemma StaysInside(r: Parser, here: Position, future: string)
    requires Reads(r, here, future)
    requires here.InCall? ==> here.params != [] && CutShort(here.params[0].0, here.params[0].1, r.buffer)
    requires here.InCall? || (here.AtLastEnd? && r.buffer == "")
    ensures Waits(r, here, future) && HasNoBullet(r.buffer) && (r.buffer == "" || "<" <= Strip(r.buffer)) && Safe(1, r.buffer)
  {
    hide Safe, Word, Value, Parameter, Parameters, Print, GoodCalls, Strip, EndsLikeEnd;
    if here.InCall? {
      var (k, v) := here.params[0];
      ParametersUnfold(here.params, Print(here.calls));
      SplitShort(Parameter(k, v), Parameters(here.params[1..]) + Print(here.calls), r.buffer, future);
      CutIsBulletFree(k, v, r.buffer, Parameter(k, v)[|r.buffer|..]);
    }
    BulletFree(r.buffer);
  }

  lemma CollectNothing(done: map<string, string>)
    ensures Collect(done, []) == done
  {
  }

  /** A parameter that is still being written looks like a tag and shows no bullet. */
  lemma CutIsBulletFree(k: string, v: string, b: string, f: string)
    requires Word(k) && Value(v) && Parameter(k, v) == b + f
    ensures HasNoBullet(b) && (b != "" ==> "<" <= Strip(b))
  {
    hide Word, Value, Contains;
    WordFacts(k, v);
    forall i | 0 <= i < |b|
      ensures b[i] != BULLET
    {
      assert b[i] == Parameter(k, v)[i];
    }
    if b != "" {
      assert b[0] == Parameter(k, v)[0] == '<';
      StripKeepsFront(b);
    }
  }

  lemma {:induction false} StripKeepsFront(s: string)
    requires s != "" && s[0] == '<'
    ensures "<" <= Strip(s)
  {
    if IsSpace(s[|s| - 1]) {
      StripKeepsFront(s[..|s| - 1]);
    }
  }

  // ---------------------------------------------------------------- what is left of the buffer

  predicate IsTail(x: string, s: string) {
    |x| <= |s| && x == s[|s| - |x|..]
  }

  lemma TailTrans(x: string, y: string, z: string)
    requires IsTail(x, y) && IsTail(y, z)
    ensures IsTail(x, z)
  {
  }

  lemma {:induction false} ExtractKeepsTail(p: Parser)
    ensures IsTail(ExtractParams(p).0.buffer, p.buffer)
    decreases |p.buffer|
  {
    var m := ClosedParam(p.buffer);
    if m.Some? {
      ExtractKeepsTail(p.(buffer := p.buffer[m.value.end..], params := p.params[Strip(m.value.key) := Strip(m.value.value)]));
    }
  }

  lemma StepKeepsTail(p: Parser)
    ensures p.mode == TextMode ==> IsTail(TextStep(p).p.buffer, p.buffer)
    ensures p.mode == Matching ==> IsTail(MatchStep(p).p.buffer, p.buffer)
  {
    hide Find, SafePrefix, SearchFunction, Strip;
  }

  lemma ParamStepKeepsTail(p: Parser)
    ensures IsTail(ParamStep(p).p.buffer, p.buffer)
  {
    hide Find, ExtractParams, Strip, Contains;
    ExtractKeepsTail(p);
    TailTrans(ParamStep(p).p.buffer, ExtractParams(p).0.buffer, p.buffer);
  }

  lemma {:induction false} RunKeepsTail(p: Parser)
    ensures IsTail(StepOnce(p).p.buffer, p.buffer)
    ensures IsTail(Run(p).0.buffer, p.buffer)
    decreases |p.buffer|, Rank(p.mode)
  {
    hide TextStep, MatchStep, ParamStep, IsTail;
    var step := StepOnce(p);
    StepKeepsTail(p);
    ParamStepKeepsTail(p);
    if step.Go? {
      RunKeepsTail(step.p);
      TailTrans(Run(p).0.buffer, step.p.buffer, p.buffer);
    }
  }

  /** The last bullet is followed by a '>': its function tag is complete. */
  predicate TagDone(s: string) {
    var i := RFind(s, [BULLET]);
    i != -1 && '>' in s[i..]
  }

  lemma TagDoneDrop(b: string, s: string)
    requires IsTail(b, s) && !HasNoBullet(b)
    ensures TagDone(s) == TagDone(b)
    ensures LongTag(s) == LongTag(b)
  {
    var a := s[..|s| - |b|];
    assert s == a + b;
    LastBullet(a, b);
    assert s[RFind(s, [BULLET])..] == b[RFind(b, [BULLET])..];
  }

  lemma TagDoneLift(b: string, s: string)
    requires IsTail(b, s) && TagDone(b)
    ensures TagDone(s)
  {
    if HasNoBullet(b) {
      BulletFree(b);
    }
    TagDoneDrop(b, s);
  }

  lemma LastBullet(a: string, b: string)
    requires !HasNoBullet(b)
    ensures RFind(b, [BULLET]) != -1 && RFind(a + b, [BULLET]) == |a| + RFind(b, [BULLET])
  {
    var r := RFind(b, [BULLET]);
    assert r != -1 by {
      var i :| 0 <= i < |b| && b[i] == BULLET;
      BulletAt(b, i);
    }
    forall k | |a| + r < k
      ensures !At(a + b, [BULLET], k)
    {
      AtSuffix(a, b, [BULLET], k);
    }
    AtShift(a, b, [BULLET], r);
    RFindIs(a + b, [BULLET], |a| + r);
  }

  /** Text without a bullet does not change which bullet is the last. */
  lemma TagDoneKeeps(s: string, t: string)
    requires TagDone(s) && HasNoBullet(t)
    ensures TagDone(s + t) && !LongTag(s + t)
  {
    var r := RFind(s, [BULLET]);
    AtPrefix(s, t, [BULLET], r);
    forall k | r < k
      ensures !At(s + t, [BULLET], k)
    {
      BulletAt(s + t, k);
      BulletAt(s, k);
    }
    RFindIs(s + t, [BULLET], r);
    assert (s + t)[r..] == s[r..] + t;
  }

  lemma TagIsDone(c: Call, b: string)
    requires GoodCall(c) && HasNoBullet(b)
    ensures TagDone(OpeningTag(c) + b)
  {
    var s := OpeningTag(c) + b;
    BulletAt(s, 0);
    forall k | 0 < k
      ensures !At(s, [BULLET], k)
    {
      BulletAt(s, k);
      if k < |OpeningTag(c)| - 1 {
        NoGreaterInTag(c, k);
      }
    }
    RFindIs(s, [BULLET], 0);
    assert s[0..] == s && s[|OpeningTag(c)| - 1] == '>';
  }

  // ---------------------------------------------------------------- one feed

  /** All that is left is the last closing tag: whatever arrives of it, the parser waits. */
  lemma StepLastEnd(p: Parser, pos: Position, future: string)
    requires Reads(p, pos, future) && pos.AtLastEnd?
    ensures ParamStep(p) == Stop(p, EMPTY) && HasNoBullet(p.buffer) && Safe(1, p.buffer)
  {
    var b := p.buffer;
    forall i | 0 <= i < |b|
      ensures b[i] == END_PARAMETER[i]
    {
      assert b[i] == (b + future)[i];
    }
    BulletFree(b);
    if ClosedParam(b).Some? {
      var e := ClosedHas(b);
    }
    if b != "" {
      StripKeepsFront(b);
    }
    hide ClosedParam, Strip;
    assert ExtractParams(p) == (p, "");
    ParamStepOn(p);
  }

  predicate Inside(pos: Position) {
    pos.InCall? || pos.AtLastEnd?
  }

  /** Working off a safe buffer gives what is due and leads to a later position of the stream; an
      unsafe one makes the parser show text that is none. A buffer that ends inside a parameter whose key
      ends like a closing tag leaves it cut in two. */
  lemma {:induction false} RunReads(p: Parser, pos: Position, future: string) returns (q: Position)
    requires Reads(p, pos, future) && (pos.InText? && HasNoBullet(p.buffer) ==> NoControl(p.buffer))
    ensures !Safe(Ahead(pos), p.buffer) ==> Longer(Run(p).1.text, Due(pos).text)
    ensures Safe(Ahead(pos), p.buffer) && Zone(pos, |future|) ==> Longer(Run(p).1.text, Due(pos).text) || CutInTwo(p, pos, q, future)
    ensures Safe(Ahead(pos), p.buffer) && !Zone(pos, |future|) ==>
              && Waits(Run(p).0, q, future) && Due(pos) == Run(p).1.Then(Due(q)) && Follows(pos, q, |future|)
              && (q.InText? ==> pos.InText? && HasNoBullet(p.buffer))
              && (Inside(q) ==> TagDone(p.buffer) || (Inside(pos) && HasNoBullet(p.buffer)))
              && (pos.AtLastEnd? ==> q.AtLastEnd?)
    decreases |p.buffer|, Rank(p.mode)
  {
    hide Safe, TagDone, Reads, Waits, Due, TextStep, MatchStep, ParamStep, NoControl, Zone, Follows, Overcut;
    var step := StepOnce(p);
    ModeOf(p, pos, future);
    var next;
    if pos.InText? {
      next := StepText(p, pos, future);
    } else if pos.AtCall? {
      next := StepMatch(p, pos, future);
    } else if pos.InCall? {
      next := StepParams(p, pos, future);
    } else {
      StepLastEnd(p, pos, future);
      EndFollows(pos, pos, |future|);
      LastEndWaits(p, pos, future);
      next := pos;
      ThenEmpty(Due(pos));
    }
    q := next;
    DueText(pos);
    if step.Stop? && Follows(pos, q, |future|) {
      PlainGoesOn(pos, q, |future|);
    }
    if Stray(step.out.text) {
      StrayIsLonger(step.out.text, "");
      StrayIsLonger(step.out.text, if step.Go? then Run(step.p).1.text else "");
      assert step.out.text + "" == step.out.text;
    }
    if step.Go? {
      if pos.InText? || step.out.text == "" {
        SameZone(pos, next, |future|);
        PlainGoesOn(pos, next, |future|);
        q := RunReads(step.p, next, future);
        RunKeepsTail(p);
        if TagDone(step.p.buffer) {
          TagDoneLift(step.p.buffer, p.buffer);
        }
        ThenAssoc(step.out, Run(step.p).1, Due(q));
        if Follows(next, q, |future|) {
          FollowsTrans(pos, next, q, |future|);
        }
        if Longer(Run(step.p).1.text, Due(next).text) {
          LongerBehind(step.out.text, Run(step.p).1.text, Due(next).text);
        }
      }
    }
  }

  /** After the run a parameter has been closed too early, and nothing else is wrong so far. */
  predicate CutInTwo(p: Parser, pos: Position, q: Position, future: string) {
    Overcut(Run(p).0, q, future) && Run(p).0.buffer == "" && Due(pos) == Run(p).1.Then(Due(q)) && (Plain(pos) ==> Plain(q))
  }

  lemma PlainGoesOn(pos: Position, q: Position, left: nat)
    requires Follows(pos, q, left)
    ensures Plain(pos) ==> Plain(q)
  {
  }

  lemma LastEndWaits(p: Parser, pos: Position, future: string)
    requires Reads(p, pos, future) && pos.AtLastEnd?
    ensures Waits(p, pos, future) && !Zone(pos, |future|)
  {
  }

  lemma ModeOf(p: Parser, pos: Position, future: string)
    requires Reads(p, pos, future)
    ensures p.mode == if pos.InText? then TextMode else if pos.AtCall? then Matching else Parsing
  {
  }

  lemma DueText(pos: Position)
    ensures !pos.InText? ==> Due(pos).text == ""
  {
  }

  // ---------------------------------------------------------------- many feeds

  function FeedAll(p: Parser, chunks: seq<string>): (Parser, Output)
    decreases |chunks|
  {
    if chunks == [] then (p, EMPTY)
    else
      var (q, out) := Fed(p, chunks[0]);
      var (r, more) := FeedAll(q, chunks[1..]);
      (r, out.Then(more))
  }

  /** Everything that comes out of a parser fed with these chunks and then flushed. */
  function ParseAll(p: Parser, chunks: seq<string>): Output {
    var (q, out) := FeedAll(p, chunks);
    out.Then(Output("", Flushed(q).1))
  }

  /** After `seen`, the chunk t does not complete a parameter behind a bullet that it brings itself
      (the very first bullet of the stream excepted), and does not end deep inside a function tag. */
  predicate SafeChunk(seen: string, t: string) {
    && ClosedParam(Behind(if HasNoBullet(seen) then 2 else 1, t)).None?
    && !LongTag(seen + t)
  }

  /** The chunk that takes what is to come from `before` to `left` characters does not end inside a
      parameter whose key ends like a closing tag. If the chunk before it ended right before the very
      last closing tag, the value is complete and it may end anywhere. */
  predicate SafeEnd(calls: seq<Call>, before: nat, left: nat) {
    before > |END_PARAMETER| ==> !CutsOpen(calls, left)
  }

  predicate SafeChunking(calls: seq<Call>, seen: string, chunks: seq<string>)
    decreases |chunks|
  {
    chunks == [] || (&& SafeChunk(seen, chunks[0]) && SafeEnd(calls, |Join(chunks)|, |Join(chunks[1..])|)
                     && SafeChunking(calls, seen + chunks[0], chunks[1..]))
  }

  /** How the text seen so far relates to the waiting parser. */
  predicate Linked(seen: string, p: Parser, pos: Position) {
    && IsTail(p.buffer, seen)
    && (pos.InText? ==> HasNoBullet(seen))
    && (Inside(pos) ==> TagDone(seen))
  }

  lemma SafeChunkIsSafe(p: Parser, pos: Position, future: string, seen: string, t: string)
    requires Waits(p, pos, t + future) && Linked(seen, p, pos)
    ensures SafeChunk(seen, t) <==> Safe(Ahead(pos), p.buffer + t)
  {
    hide Print, Parameters, Parameter, GoodCalls, GoodParams, ClosedParam, TagDone, Behind, LongTag, Find, RFind;
    WaitingBuffer(p, pos, t + future);
    var b := p.buffer;
    if pos.InText? {
      assert b + t == t;
      if HasNoBullet(t) {
        BulletFree(t);
        BulletFreeJoin(seen, t);
        BulletFree(seen + t);
        assert Safe(2, t) && Safe(2, seen + t);
      } else {
        LongTagDrop(seen, t);
      }
    } else if pos.AtCall? {
      BulletWaits(b, seen, t);
    } else {
      InsideWaits(b, seen, t);
    }
  }

  lemma BulletWaits(b: string, seen: string, t: string)
    requires IsTail(b, seen) && b != "" && b[0] == BULLET && HasNoBullet(b[1..])
    ensures SafeChunk(seen, t) <==> Safe(2, b + t)
  {
    hide ClosedParam, LongTag;
    var before := seen[..|seen| - |b|];
    assert seen == before + b && seen + t == before + (b + t);
    BehindFirst(2, b + t);
    assert (b + t)[1..] == b[1..] + t;
    BehindDrop(1, b[1..], t);
    assert (b + t)[0] == BULLET && seen[|before|] == BULLET;
    LongTagDrop(before, b + t);
  }

  lemma InsideWaits(b: string, seen: string, t: string)
    requires IsTail(b, seen) && HasNoBullet(b) && TagDone(seen)
    ensures SafeChunk(seen, t) <==> Safe(1, b + t)
  {
    hide ClosedParam, LongTag, TagDone, Behind;
    TagHasBullet(seen);
    BehindDrop(1, b, t);
    if HasNoBullet(t) {
      TagDoneKeeps(seen, t);
      BulletFreeJoin(b, t);
      BulletFree(b + t);
    } else {
      LongTagDrop(b, t);
      LongTagDrop(seen, t);
    }
  }

  lemma TagHasBullet(s: string)
    requires TagDone(s)
    ensures !HasNoBullet(s)
  {
    if HasNoBullet(s) {
      BulletFree(s);
    }
  }

  lemma WaitingBuffer(p: Parser, pos: Position, future: string)
    requires Waits(p, pos, future)
    ensures pos.AtCall? ==> p.buffer != "" && p.buffer[0] == BULLET && HasNoBullet(p.buffer[1..])
    ensures Inside(pos) ==> HasNoBullet(p.buffer)
  {
    hide Word, Value, OpeningTag, Parameter, GoodCall;
    var b := p.buffer;
    if pos.AtLastEnd? {
      StepLastEnd(p, pos, future);
    }
    if pos.AtCall? {
      PrintUnfold(pos.calls);
      var c := pos.calls[0];
      var tag := OpeningTag(c);
      SplitShort(tag, Parameters(c.params) + Print(pos.calls[1..]), b, future);
      NonEmptyIsBullet(pos.calls, b, future);
      forall k | 0 <= k < |b[1..]|
        ensures b[1..][k] != BULLET
      {
        NoGreaterInTag(c, k + 1);
      }
    } else if pos.InCall? && pos.params != [] {
      ParametersUnfold(pos.params, Print(pos.calls));
      var (k, v) := pos.params[0];
      SplitShort(Parameter(k, v), Parameters(pos.params[1..]) + Print(pos.calls), b, future);
      CutIsBulletFree(k, v, b, Parameter(k, v)[|b|..]);
    }
  }

  lemma LinkAfter(p: Parser, pos: Position, seen: string, t: string, r: Parser, q: Position)
    requires Linked(seen, p, pos) && IsTail(r.buffer, p.buffer + t)
    requires q.InText? ==> pos.InText? && HasNoBullet(p.buffer + t)
    requires Inside(q) ==> TagDone(p.buffer + t) || (Inside(pos) && HasNoBullet(p.buffer + t))
    ensures Linked(seen + t, r, q)
  {
    hide TagDone, HasNoBullet;
    var b := p.buffer + t;
    assert IsTail(b, seen + t) by {
      assert seen + t == seen[..|seen| - |p.buffer|] + b;
    }
    TailTrans(r.buffer, b, seen + t);
    BulletFreeParts(p.buffer, t);
    if q.InText? {
      BulletFreeJoin(seen, t);
    } else if Inside(q) {
      if TagDone(b) {
        TagDoneLift(b, seen + t);
      } else {
        TagDoneKeeps(seen, t);
      }
    }
  }

  lemma BulletFreeParts(a: string, b: string)
    ensures HasNoBullet(a + b) ==> HasNoBullet(b)
  {
    if HasNoBullet(a + b) {
      forall i | 0 <= i < |b|
        ensures b[i] != BULLET
      {
        assert b[i] == (a + b)[|a| + i];
      }
    }
  }

  /** One chunk, from waiting to waiting. */
  lemma FeedReads(calls: seq<Call>, p: Parser, pos: Position, future: string, seen: string, t: string) returns (q: Position)
    requires Waits(p, pos, t + future) && Linked(seen, p, pos) && NoControl(p.buffer + t)
    requires Follows(AtCall(calls), pos, |t + future|)
    ensures var (r, out) := Fed(p, t);
            if !SafeChunk(seen, t) then Longer(out.text, Due(pos).text)
            else if SafeEnd(calls, |t + future|, |future|) then
              && Waits(r, q, future) && Linked(seen + t, r, q) && Due(pos) == out.Then(Due(q))
              && Follows(AtCall(calls), q, |future|)
            else
              || Longer(out.text, Due(pos).text)
              || (&& Overcut(r, q, future) && r.buffer == "" && Due(pos) == out.Then(Due(q)) && (PlainCalls(calls) ==> Plain(q)))
  {
    hide HasNoBullet, TagDone, SafeChunk, Safe, SafeEnd, Run, NoControl, Due, Linked, Waits, Reads, IsTail, Follows, Overcut, Zone;
    SafeChunkIsSafe(p, pos, future, seen, t);
    SafeEndIsZone(calls, p, pos, future, t);
    NoControlToStrip(p.buffer + t);
    var start := p.(buffer := p.buffer + t);
    ReadsMore(p, pos, future, t);
    q := RunReads(start, pos, future);
    RunKeepsTail(start);
    if SafeChunk(seen, t) && SafeEnd(calls, |t + future|, |future|) {
      LinkAfter(p, pos, seen, t, Run(start).0, q);
    }
  }

  lemma SafeEndIsZone(calls: seq<Call>, p: Parser, pos: Position, future: string, t: string)
    requires Waits(p, pos, t + future) && Follows(AtCall(calls), pos, |t + future|)
    ensures SafeEnd(calls, |t + future|, |future|) <==> !Zone(pos, |future|)
    ensures forall q :: Follows(pos, q, |future|) && (pos.AtLastEnd? ==> q.AtLastEnd?) ==> Follows(AtCall(calls), q, |future|)
    ensures !pos.AtLastEnd? && PlainCalls(calls) ==> Plain(pos)
  {
    hide Print, Parameters, CutsOpen, ExposedIn, GoodCalls, GoodParams, PlainCalls, PlainParams, OpeningTag, Parameter, CutShort;
    if !pos.AtLastEnd? && Zone(pos, |future|) {
      ZoneIsFar(p, pos, t + future, |future|);
    }
    assert Zone(AtCall(calls), |future|) <==> CutsOpen(calls, |future|);
  }

  /** A waiting parser has all parameters that can still be cut ahead of it. */
  lemma ZoneIsFar(p: Parser, pos: Position, future: string, left: nat)
    requires Waits(p, pos, future) && Zone(pos, left)
    ensures |future| > |END_PARAMETER|
  {
    hide Print, GoodCalls, GoodParams, OpeningTag;
    match pos {
      case InText(_, calls) =>
        CutsInside(calls, left);
      case AtCall(calls) =>
        CutsInside(calls, left);
      case InCall(_, _, params, calls) =>
        if CutsOpen(calls, left) {
          CutsInside(calls, left);
        }
        if params != [] {
          if ExposedIn(params[1..], |Print(calls)|, left) {
            ExposedInside(params[1..], |Print(calls)|, left);
          }
        }
      case AtLastEnd(_, _) =>
    }
  }

  lemma ReadsMore(p: Parser, pos: Position, future: string, t: string)
    requires Waits(p, pos, t + future)
    ensures Reads(p.(buffer := p.buffer + t), pos, future)
  {
    assert p.buffer + (t + future) == (p.buffer + t) + future;
  }

  /** When everything has been fed, the flush hands out what is still due. */
  lemma FlushReads(p: Parser, pos: Position)
    requires Waits(p, pos, "")
    ensures Due(pos) == Output("", Flushed(p).1)
  {
    hide Word, Value, Parameter, OpeningTag, GoodCall, Collect;
    assert p.buffer + "" == p.buffer;
    if pos.AtLastEnd? {
      NoOpenerInEnd();
    } else if pos.InCall? {
      ParametersUnfold(pos.params, Print(pos.calls));
      if pos.calls != [] {
        BulletOpens(pos.calls);
      }
      CollectNothing(pos.done);
    } else {
      NothingAhead(p, pos);
    }
  }

  /** A parser that waits outside a call with nothing to come has nothing to hand out. */
  lemma NothingAhead(p: Parser, pos: Position)
    requires Waits(p, pos, "") && !Inside(pos)
    ensures pos.InText? && pos.calls == [] && pos.text == ""
  {
    hide OpeningTag, GoodCall, Parameters;
    assert p.buffer + "" == p.buffer;
    PrintUnfold(pos.calls);
    if pos.calls != [] {
      BulletOpens(pos.calls);
    }
  }

  lemma NoOpenerInEnd()
    ensures StripControl(END_PARAMETER) == END_PARAMETER && SearchParameter(END_PARAMETER, 0).None?
  {
    hide StripControl;
    NoControlToStrip(END_PARAMETER);
    NoOpenerNoTag(END_PARAMETER) by {
      forall i
        ensures !At(END_PARAMETER, PARAMETER, i)
      {
        assert "" + END_PARAMETER == END_PARAMETER;
        if At(END_PARAMETER, PARAMETER, i) {
          OpenerInValue("", i);
        }
      }
    }
  }

  lemma NoOpenerNoTag(s: string)
    requires forall i :: !At(s, PARAMETER, i)
    ensures SearchParameter(s, 0).None?
  {
    SearchIsAt(s);
  }

  lemma SearchIsAt(s: string)
    ensures SearchParameter(s, 0).Some? ==> At(s, PARAMETER, SearchParameter(s, 0).value.start)
  {
  }

  lemma JoinFirst(chunks: seq<string>)
    requires chunks != []
    ensures Join(chunks) == chunks[0] + Join(chunks[1..])
  {
    JoinConcat(chunks[..1], chunks[1..]);
    assert chunks == chunks[..1] + chunks[1..];
    assert chunks[..1][..0] == [];
    assert Join(chunks[..1]) == "" + chunks[0];
  }

  lemma {:induction false} FeedAllReads(calls: seq<Call>, p: Parser, pos: Position, seen: string, chunks: seq<string>)
    requires Waits(p, pos, Join(chunks)) && Linked(seen, p, pos) && NoControl(p.buffer + Join(chunks))
    requires Follows(AtCall(calls), pos, |Join(chunks)|)
    ensures SafeChunking(calls, seen, chunks) ==> ParseAll(p, chunks) == Due(pos)
    ensures !SafeChunking(calls, seen, chunks) && StrictCalls(calls) ==> Longer(ParseAll(p, chunks).text, Due(pos).text)
    ensures chunks != [] && !SafeChunk(seen, chunks[0]) ==> Longer(ParseAll(p, chunks).text, Due(pos).text)
    ensures !SafeChunking(calls, seen, chunks) && PlainCalls(calls) ==>
              Longer(ParseAll(p, chunks).text, Due(pos).text) || ParseAll(p, chunks).tools != Due(pos).tools
    decreases |chunks|
  {
    hide Waits, Linked, NoControl, Fed, Flushed, Due, SafeChunk, SafeEnd, StrictCalls, PlainCalls, Plain, Follows, Overcut, Join;
    if chunks == [] {
      assert Join(chunks) == "" by { JoinNothing(); }
      FlushReads(p, pos);
      ThenEmpty(Due(pos));
    } else {
      var t, rest := chunks[0], Join(chunks[1..]);
      JoinFirst(chunks);
      var whole := p.buffer + (t + rest);
      assert whole == (p.buffer + t) + rest;
      NoControlPiece(whole, 0, |p.buffer + t|);
      assert whole[0..|p.buffer + t|] == p.buffer + t;
      var q := FeedReads(calls, p, pos, rest, seen, t);
      var (r, out) := Fed(p, t);
      ParseAllUnfold(p, chunks);
      StrictEnds(calls, |t + rest|, |rest|);
      FedKeepsTail(p, t);
      var i := |p.buffer + t| - |r.buffer|;
      assert whole[i..|whole|] == r.buffer + rest;
      NoControlPiece(whole, i, |whole|);
      if SafeChunk(seen, t) && SafeEnd(calls, |t + rest|, |rest|) {
        FeedAllReads(calls, r, q, seen + t, chunks[1..]);
        ThenDiffers(out, ParseAll(r, chunks[1..]), Due(q));
      } else if Longer(out.text, Due(pos).text) {
        LongerStill(out.text, Due(pos).text, ParseAll(r, chunks[1..]).text);
      } else if SafeChunk(seen, t) && PlainCalls(calls) {
        OvercutFails(r, q, chunks[1..]);
        ThenDiffers(out, ParseAll(r, chunks[1..]), Due(q));
      }
    }
  }

  /** No key ends like a closing tag. */
  predicate StrictCalls(calls: seq<Call>) {
    forall i, j :: 0 <= i < |calls| && 0 <= j < |calls[i].params| ==> !EndsLikeEnd(calls[i].params[j].0)
  }

  lemma StrictEnds(calls: seq<Call>, before: nat, left: nat)
    ensures StrictCalls(calls) ==> SafeEnd(calls, before, left)
  {
    if StrictCalls(calls) {
      StrictIsUncut(calls, left);
    }
  }

  lemma {:induction false} StrictIsUncut(calls: seq<Call>, left: nat)
    requires StrictCalls(calls)
    ensures !CutsOpen(calls, left)
  {
    hide Print;
    if calls != [] {
      StrictParams(calls[0].params, |Print(calls[1..])|, left);
      assert StrictCalls(calls[1..]) by {
        assert forall i :: 0 <= i < |calls[1..]| ==> calls[1..][i] == calls[i + 1];
      }
      StrictIsUncut(calls[1..], left);
    }
  }

  lemma {:induction false} StrictParams(ps: seq<(string, string)>, after: nat, left: nat)
    requires forall j :: 0 <= j < |ps| ==> !EndsLikeEnd(ps[j].0)
    ensures !ExposedIn(ps, after, left)
  {
    if ps != [] {
      StrictParams(ps[1..], after, left);
    }
  }

  lemma JoinNothing()
    ensures Join([]) == ""
  {
  }

  lemma ParseAllUnfold(p: Parser, chunks: seq<string>)
    requires chunks != []
    ensures var (r, out) := Fed(p, chunks[0]); ParseAll(p, chunks) == out.Then(ParseAll(r, chunks[1..]))
  {
    hide Fed, Flushed;
    var (r, out) := Fed(p, chunks[0]);
    var (q, more) := FeedAll(r, chunks[1..]);
    ThenAssoc(out, more, Output("", Flushed(q).1));
  }

  lemma FedKeepsTail(p: Parser, t: string)
    requires NoControl(p.buffer + t)
    ensures IsTail(Fed(p, t).0.buffer, p.buffer + t)
  {
    hide NoControl, Run, StripControl;
    NoControlToStrip(p.buffer + t);
    RunKeepsTail(p.(buffer := p.buffer + t));
  }

  // ---------------------------------------------------------------- after a parameter was cut in two

  lemma ThenDiffers(out: Output, x: Output, y: Output)
    ensures Longer(x.text, y.text) ==> Longer(out.Then(x).text, out.Then(y).text)
    ensures x.tools != y.tools ==> out.Then(x).tools != out.Then(y).tools
  {
    if Longer(x.text, y.text) {
      LongerBehind(out.text, x.text, y.text);
    }
    if x.tools != y.tools {
      assert out.Then(x).tools[|out.tools|..] == x.tools && out.Then(y).tools[|out.tools|..] == y.tools;
    }
  }

  /** What a well-formed text can go on with. */
  predicate GoesOn(rest: string) {
    rest == "" || rest[0] == BULLET || (rest[0] == '<' && ClosedParam(rest).Some?)
  }

  /** Stray text in front of what goes on: shown whole as soon as that comes, or what there is of it as
      soon as it cannot be a tag. */
  lemma StrayStep(p: Parser, x: string, rest: string, future: string)
    requires p.mode == Parsing && p.buffer + future == x + rest && x != "" && HasNoBullet(x) && !Contains(x, PARAMETER)
    requires rest == "" || rest[0] == BULLET || rest[0] == '<'
    ensures var st := ParamStep(p);
            || x <= st.out.text
            || (p.buffer != "" && |p.buffer| < |x| && st.Go? && st.out.text == p.buffer && st.p.mode == TextMode && st.p.buffer == "")
            || (st == Stop(p, EMPTY) && HasNoBullet(p.buffer) && ClosedParam(p.buffer).None?)
  {
    hide ClosedParam, Strip, Contains, ParamStep;
    var b := p.buffer;
    Overlap(b, future, x, rest);
    if ClosedParam(b).Some? {
      OpenerIsBehind(b, future, x, rest);
      assert x <= b[..ClosedParam(b).value.start] <= ExtractParams(p).1;
      ParamStepOn(p);
    } else {
      assert ExtractParams(p) == (p, "");
      StrayStop(p, x);
    }
  }

  lemma Overlap(b: string, future: string, x: string, rest: string)
    requires b + future == x + rest
    ensures if |b| < |x| then b == x[..|b|] else x <= b
    ensures |b| > |x| ==> rest != "" && b[|x|] == rest[0]
  {
    assert (b + future)[..|b|] == b && (x + rest)[..|x|] == x;
    if |b| < |x| {
      assert (x + rest)[..|b|] == x[..|b|];
    } else {
      assert (b + future)[..|x|] == b[..|x|];
      assert |b| > |x| ==> (b + future)[|x|] == b[|x|];
    }
  }

  lemma StrayStop(p: Parser, x: string)
    requires ExtractParams(p) == (p, "") && x != "" && HasNoBullet(x)
    requires if |p.buffer| < |x| then p.buffer == x[..|p.buffer|] else x <= p.buffer
    ensures var st := ParamStep(p);
            || x <= st.out.text
            || (p.buffer != "" && |p.buffer| < |x| && st.Go? && st.out.text == p.buffer && st.p.mode == TextMode && st.p.buffer == "")
            || (st == Stop(p, EMPTY) && HasNoBullet(p.buffer))
  {
    hide ExtractParams, Strip, Contains;
    var b := p.buffer;
    var bullet := Find(b, [BULLET], 0);
    if bullet == -1 {
      forall i | 0 <= i < |b|
        ensures b[i] != BULLET
      {
        BulletAt(b, i);
      }
      assert "" + b == b;
    } else {
      BulletAt(b, bullet);
      assert "" + b[..bullet] == b[..bullet];
    }
  }

  /** No opening tag starts inside stray text. */
  lemma OpenerIsBehind(b: string, future: string, x: string, rest: string)
    requires b + future == x + rest && x != "" && !Contains(x, PARAMETER) && ClosedParam(b).Some?
    requires rest == "" || rest[0] == BULLET || rest[0] == '<'
    ensures ClosedParam(b).value.start >= |x|
  {
    hide ClosedParam, Contains;
    var i := ClosedParam(b).value.start;
    var e := ClosedHas(b);
    Overlap(b, future, x, rest);
    if i < |x| {
      if i + 11 <= |x| {
        OpenerInPart(b, x, i);
      } else {
        OpenerChars(b, i, |x|);
      }
    }
  }

  lemma OpenerInPart(b: string, x: string, i: int)
    requires At(b, PARAMETER, i) && i + |PARAMETER| <= |x| && (if |b| < |x| then b == x[..|b|] else x <= b)
    ensures Contains(x, PARAMETER)
  {
    assert x[i..i + 11] == b[i..i + 11];
    ContainsAt(x, PARAMETER, i);
  }

  lemma {:induction false} StrayFails(p: Parser, x: string, rest: string, chunks: seq<string>)
    requires p.mode == Parsing && p.buffer + Join(chunks) == x + rest && x != "" && HasNoBullet(x) && !Contains(x, PARAMETER)
    requires x[|x| - 1] == '>'
    requires GoesOn(rest) && NoControl(p.buffer + Join(chunks)) && HasNoBullet(p.buffer) && ClosedParam(p.buffer).None?
    ensures Longer(ParseAll(p, chunks).text, "") || (rest == "" && ParseAll(p, chunks) == Output("", [ToolUse(p.name, p.params)]))
    decreases |chunks|
  {
    hide Fed, Flushed, ClosedParam, Contains, NoControl, ParamStep, Join, HasNoBullet, Longer;
    if chunks == [] {
      JoinNothing();
      assert p.buffer + "" == p.buffer;
      StrayEnds(p, x, rest);
      ThenEmpty(Output("", Flushed(p).1));
    } else {
      var t, more := chunks[0], Join(chunks[1..]);
      JoinFirst(chunks);
      var whole := p.buffer + (t + more);
      assert whole == (p.buffer + t) + more;
      NoControlPiece(whole, 0, |p.buffer + t|);
      assert whole[0..|p.buffer + t|] == p.buffer + t;
      NoControlPiece(whole, |p.buffer + t|, |whole|);
      assert whole[|p.buffer + t|..|whole|] == more;
      NoControlToStrip(p.buffer + t);
      var start := p.(buffer := p.buffer + t);
      StrayStep(start, x, rest, more);
      ParseAllUnfold(p, chunks);
      StrayFed(p, t);
      var st, after := ParamStep(start), ParseAll(Fed(p, t).0, chunks[1..]);
      if st == Stop(start, EMPTY) && HasNoBullet(start.buffer) && ClosedParam(start.buffer).None? {
        StrayFails(start, x, rest, chunks[1..]);
        ThenEmpty(ParseAll(start, chunks[1..]));
      } else if x <= st.out.text {
        StrayWhole(x, Fed(p, t).1.text, after.text);
      } else {
        LeftOver(start.buffer, more, x, rest);
        TextShows(Fed(p, t).0, chunks[1..]);
        TwoShown(start.buffer, after.text);
      }
    }
  }

  lemma StrayWhole(x: string, text: string, more: string)
    requires x != "" && x[|x| - 1] == '>' && x <= text
    ensures Longer(text + more, "")
  {
    assert (text + more)[|x| - 1] == x[|x| - 1];
  }

  lemma TwoShown(a: string, b: string)
    requires a != "" && b != ""
    ensures Longer(a + b, "")
  {
  }

  lemma LeftOver(b: string, future: string, x: string, rest: string)
    requires b + future == x + rest && |b| < |x| && HasNoBullet(x)
    ensures future != "" && future[0] != BULLET
  {
    assert future[0] == (b + future)[|b|] == (x + rest)[|b|] == x[|b|];
  }

  /** In the text, the first character to come is shown. */
  lemma {:induction false} TextShows(p: Parser, chunks: seq<string>)
    requires p.mode == TextMode && p.buffer == "" && Join(chunks) != "" && Join(chunks)[0] != BULLET && NoControl(Join(chunks))
    ensures ParseAll(p, chunks).text != ""
    decreases |chunks|
  {
    hide Fed, Flushed, NoControl, Join;
    if chunks == [] {
      JoinNothing();
    } else {
      var t, more := chunks[0], Join(chunks[1..]);
      JoinFirst(chunks);
      NoControlPiece(t + more, 0, |t|);
      assert (t + more)[0..|t|] == t;
      ParseAllUnfold(p, chunks);
      TextFed(p, t);
      if t == "" {
        assert t + more == more;
        TextShows(p, chunks[1..]);
      } else {
        assert t[0] == (t + more)[0];
      }
    }
  }

  lemma TextFed(p: Parser, t: string)
    requires p.mode == TextMode && p.buffer == "" && NoControl(t)
    ensures t == "" ==> Fed(p, t) == (p, EMPTY)
    ensures t != "" && t[0] != BULLET ==> Fed(p, t).1.text != ""
  {
    hide StripControl, SafePrefix, NoControl;
    assert "" + t == t;
    NoControlToStrip(t);
    NoControlToHold(t);
    var bullet := Find(t, [BULLET], 0);
    BulletAt(t, bullet);
  }

  lemma StrayFed(p: Parser, t: string)
    requires p.mode == Parsing && StripControl(p.buffer + t) == p.buffer + t
    ensures var start := p.(buffer := p.buffer + t);
            var st := ParamStep(start);
            && st.out.text <= Fed(p, t).1.text
            && (st == Stop(start, EMPTY) ==> Fed(p, t) == (start, EMPTY))
            && (st.Go? && st.p.mode == TextMode && st.p.buffer == "" ==> Fed(p, t).0 == st.p && Fed(p, t).1.text == st.out.text)
  {
    hide ParamStep, StripControl;
    var st := ParamStep(p.(buffer := p.buffer + t));
    if st.Go? && st.p.mode == TextMode && st.p.buffer == "" {
      TextRunsOut(st.p);
      assert st.out.text + "" == st.out.text;
    }
  }

  lemma TextRunsOut(p: Parser)
    requires p.mode == TextMode && p.buffer == ""
    ensures Run(p) == (p, EMPTY)
  {
    BulletAt("", Find("", [BULLET], 0));
  }

  lemma StrayEnds(p: Parser, x: string, rest: string)
    requires p.mode == Parsing && p.buffer == x + rest && x != "" && !Contains(x, PARAMETER) && GoesOn(rest)
    requires NoControl(p.buffer) && HasNoBullet(p.buffer) && ClosedParam(p.buffer).None?
    ensures rest == "" && Flushed(p).1 == [ToolUse(p.name, p.params)]
  {
    hide ClosedParam, StripControl, NoControl;
    if rest != "" {
      assert p.buffer[|x|] == rest[0];
      if ClosedParam(rest).Some? {
        ClosedLift(x, rest);
      }
    }
    assert x + "" == x;
    NoControlToStrip(p.buffer);
    NoOpenerNoTag(x) by { hide NoControl; }
  }

  /** A parameter cut in two spoils the outcome: what is left of it is shown, or its value is not whole. */
  lemma OvercutFails(r: Parser, q: Position, chunks: seq<string>)
    requires Overcut(r, q, Join(chunks)) && r.buffer == "" && Plain(q) && NoControl(r.buffer + Join(chunks))
    ensures Due(q).text == ""
    ensures Longer(ParseAll(r, chunks).text, "") || ParseAll(r, chunks).tools != Due(q).tools
  {
    hide ParseAll, Join, NoControl, Parameters, Print, GoodParams, GoodCalls, Meaning, ClosedParam, Strip;
    var (k, v) := q.params[0];
    var whole, rest := v + END_PARAMETER, Parameters(q.params[1..]) + Print(q.calls);
    var n := |whole| + |rest| - |r.buffer + Join(chunks)|;
    GoodFront(q);
    StrayIsPlain(k, v, n);
    RestGoesOn(q);
    NothingClosed();
    StrayFails(r, whole[n..], rest, chunks);
    if rest == "" {
      NothingLeft(q.params[1..], q.calls);
      WrongValue(v, n);
      WrongTools(q);
      assert r.params[k] == Strip(whole[..n]);
    }
  }

  lemma GoodFront(q: Position)
    requires q.InCall? && q.params != [] && Good(q) && Plain(q)
    ensures var (k, v) := q.params[0]; Word(k) && Value(v) && (EndsLikeEnd(k) ==> !Contains(v, PARAMETER))
  {
  }

  lemma WrongTools(q: Position)
    requires q.InCall? && |q.params| == 1 && q.calls == []
    ensures Due(q).tools == [ToolUse(q.name, q.done[q.params[0].0 := q.params[0].1])]
  {
    CollectNothing(q.done[q.params[0].0 := q.params[0].1]);
    assert q.params[1..] == [];
  }

  lemma StrayIsPlain(k: string, v: string, n: nat)
    requires Value(v) && !Contains(v, PARAMETER) && n < |v + END_PARAMETER|
    ensures var x := (v + END_PARAMETER)[n..]; x != "" && x[|x| - 1] == '>' && HasNoBullet(x) && !Contains(x, PARAMETER)
  {
    var whole := v + END_PARAMETER;
    var x := whole[n..];
    assert x[|x| - 1] == whole[|whole| - 1] == '>';
    NoBulletBehind(v, n);
    hide Contains, Value, HasNoBullet;
    if Contains(x, PARAMETER) {
      var i := WhereIn(x, PARAMETER);
      assert whole == whole[..n] + x;
      AtShift(whole[..n], x, PARAMETER, i);
      OpenerInValue(v, n + i);
    }
  }

  lemma WhereIn(s: string, pat: string) returns (i: int)
    requires Contains(s, pat)
    ensures At(s, pat, i)
  {
    i := Find(s, pat, 0);
  }

  lemma NoBulletBehind(v: string, n: nat)
    requires Value(v) && n <= |v + END_PARAMETER|
    ensures HasNoBullet((v + END_PARAMETER)[n..])
  {
    hide Contains;
    var whole := v + END_PARAMETER;
    forall i | n <= i < |whole|
      ensures whole[i] != BULLET
    {
      assert whole[i] == if i < |v| then v[i] else END_PARAMETER[i - |v|];
    }
  }

  lemma OpenerChars(s: string, i: int, k: int)
    requires At(s, PARAMETER, i) && i <= k < i + 11
    ensures s[k] == '<' <==> k == i
    ensures s[k] != '/' && s[k] != BULLET
  {
    assert s[k] == s[i..i + 11][k - i] == PARAMETER[k - i];
  }

  lemma OpenerInValue(v: string, i: int)
    requires At(v + END_PARAMETER, PARAMETER, i)
    ensures Contains(v, PARAMETER)
  {
    var whole := v + END_PARAMETER;
    if i + 11 <= |v| {
      AtPrefix(v, END_PARAMETER, PARAMETER, i);
      ContainsAt(v, PARAMETER, i);
    } else if i < |v| {
      OpenerChars(whole, i, |v|);
    } else if i == |v| {
      OpenerChars(whole, i, i + 1);
    } else {
      assert whole[i] == END_PARAMETER[i - |v|] != '<';
      OpenerChars(whole, i, i);
    }
  }

  lemma RestGoesOn(q: Position)
    requires q.InCall? && q.params != [] && Good(q)
    ensures GoesOn(Parameters(q.params[1..]) + Print(q.calls))
  {
    hide ClosedParam, Word, Value, Print, GoodCalls, Parameter, Parameters;
    var ps := q.params[1..];
    ParametersUnfold(ps, Print(q.calls));
    if ps != [] {
      var (k, v) := ps[0];
      WordFacts(k, v);
      WholeParameter(k, v, Parameters(ps[1..]) + Print(q.calls));
    } else if q.calls != [] {
      BulletOpens(q.calls);
    } else {
      assert Print([]) == "" by { NothingPrinted(); }
    }
  }

  lemma NothingPrinted()
    ensures Print([]) == ""
  {
  }

  lemma WrongValue(v: string, n: nat)
    requires Value(v) && n < |v + END_PARAMETER| && n != |v|
    ensures Strip((v + END_PARAMETER)[..n]) != v
  {
    var s := (v + END_PARAMETER)[..n];
    StripIsShorter(s);
    if n > |v| {
      if v != "" {
        LastOfValue(v);
      }
      assert s[0] == (if v == "" then '<' else v[0]);
      assert s[n - 1] == END_PARAMETER[n - 1 - |v|];
      assert !IsSpace(s[n - 1]);
      assert Strip(s) == s;
    }
  }

  // ---------------------------------------------------------------- the main results

  /** Leading text followed by well-formed calls, cut into chunks: the text and exactly those calls
      come out if the chunking is safe. The converse is for values without an opening tag under keys
      that end like a closing tag. */
  lemma CallsRecoveredIffSafe(lead: string, calls: seq<Call>, chunks: seq<string>)
    requires HasNoBullet(lead) && GoodCalls(calls) && NoControl(lead + Print(calls))
    requires Join(chunks) == lead + Print(calls)
    ensures SafeChunking(calls, "", chunks) ==> ParseAll(FRESH, chunks) == Output(lead, Meaning(calls))
    ensures PlainCalls(calls) ==> (ParseAll(FRESH, chunks) == Output(lead, Meaning(calls)) <==> SafeChunking(calls, "", chunks))
  {
    StartFollows(lead, calls, |Join(chunks)|);
    hide Print, GoodCall, Join, SafeChunking, NoControl, Meaning, Follows, PlainCalls;
    var pos := InText(lead, calls);
    assert FRESH.buffer + Join(chunks) == Join(chunks);
    FeedAllReads(calls, FRESH, pos, "", chunks);
  }

  lemma StartFollows(lead: string, calls: seq<Call>, left: nat)
    ensures Follows(AtCall(calls), InText(lead, calls), left)
  {
  }
}
