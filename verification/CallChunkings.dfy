/** Which ways of cutting well-formed calls into chunks are safe, by example: a single call, several
    calls in one chunk, and keys that end like a closing tag. */
module CallChunkings {
  import opened Strings
  import opened Wrappers
  import opened HeuristicParser
  import opened CanonicalCalls

  /** Every prefix of a stream whose function tags keep to the limit. */
  lemma {:induction false} ShortTags(calls: seq<Call>, lead: string, x: string, y: string)
    requires HasNoBullet(lead) && GoodCalls(calls) && lead + Print(calls) == x + y
    requires forall i :: 0 <= i < |calls| ==> |OpeningTag(calls[i])| <= MAX_TAG + 1
    ensures !LongTag(x)
    decreases |calls|
  {
    hide GoodCall, GoodCalls, OpeningTag, Print, LongTag, Parameters;
    PrintUnfold(calls);
    if |x| <= |lead| {
      SplitShort(lead, Print(calls), x, y);
      forall i | 0 <= i < |x|
        ensures x[i] != BULLET
      {
        assert x[i] == lead[i];
      }
      NoLongTag(x);
    } else {
      SplitLong(lead, Print(calls), x, y);
      var x1 := x[|lead|..];
      var c := calls[0];
      var body := Parameters(c.params) + Print(calls[1..]);
      NonEmptyIsBullet(calls, x1, y);
      LongTagDrop(lead, x1);
      if |x1| < |OpeningTag(c)| {
        SplitShort(OpeningTag(c), body, x1, y);
        CutTagSafety(c, x1, OpeningTag(c)[|x1|..]);
        assert Safe(2, x1);
      } else {
        SplitLong(OpeningTag(c), body, x1, y);
        var x2 := x1[|OpeningTag(c)|..];
        StripName(c);
        ParametersBulletFree(c.params);
        ShortTags(calls[1..], Parameters(c.params), x2, y);
        if HasNoBullet(x2) {
          TagIsDone(c, x2);
          TagDoneKeeps(x1, "");
          assert x1 + "" == x1;
        } else {
          LongTagDrop(OpeningTag(c), x2);
        }
      }
    }
  }

  lemma NoLongTag(x: string)
    requires HasNoBullet(x)
    ensures !LongTag(x)
  {
    BulletFree(x);
  }

  lemma {:induction false} ParametersBulletFree(ps: seq<(string, string)>)
    requires GoodParams(ps)
    ensures HasNoBullet(Parameters(ps))
  {
    hide Word, Value, Parameter;
    if ps != [] {
      WordFacts(ps[0].0, ps[0].1);
      ParametersBulletFree(ps[1..]);
      BulletFreeJoin(Parameter(ps[0].0, ps[0].1), Parameters(ps[1..]));
    }
  }

  /** A single call with a function tag within the limit survives every chunking, unless a key ends like
      a closing tag. */
  lemma OneCallSurvives(lead: string, c: Call, chunks: seq<string>)
    requires HasNoBullet(lead) && GoodCall(c) && StrictCalls([c]) && NoControl(lead + Print([c])) && |OpeningTag(c)| <= MAX_TAG + 1
    requires Join(chunks) == lead + Print([c])
    ensures ParseAll(FRESH, chunks) == Output(lead, [ToolUse(c.name, Collect(map[], c.params))])
  {
    var calls := [c];
    OneBulletChunking(lead, calls, "", chunks);
    CallsRecoveredIffSafe(lead, calls, chunks);
    assert calls[1..] == [];
  }

  lemma {:induction false} OneBulletChunking(lead: string, calls: seq<Call>, seen: string, chunks: seq<string>)
    requires HasNoBullet(lead) && |calls| == 1 && GoodCalls(calls) && StrictCalls(calls) && |OpeningTag(calls[0])| <= MAX_TAG + 1
    requires seen + Join(chunks) == lead + Print(calls)
    ensures SafeChunking(calls, seen, chunks)
    decreases |chunks|
  {
    hide GoodCall, OpeningTag, Print, LongTag, Join, StrictCalls, SafeEnd;
    if chunks != [] {
      var t, rest := chunks[0], Join(chunks[1..]);
      JoinFirst(chunks);
      assert seen + (t + rest) == (seen + t) + rest;
      ShortTags(calls, lead, seen + t, rest);
      OneBullet(lead, calls, seen + t, rest);
      BehindOneBullet(seen, t);
      StrictEnds(calls, |t + rest|, |rest|);
      OneBulletChunking(lead, calls, seen + t, chunks[1..]);
    }
  }

  /** The text behind the first bullet, if there is one, holds no second. */
  predicate AtMostOneBullet(s: string) {
    forall i, j :: 0 <= i < j < |s| ==> !(s[i] == BULLET && s[j] == BULLET)
  }

  lemma OneBullet(lead: string, calls: seq<Call>, x: string, y: string)
    requires HasNoBullet(lead) && |calls| == 1 && GoodCalls(calls) && lead + Print(calls) == x + y
    ensures AtMostOneBullet(x)
  {
    hide GoodCall, OpeningTag, Parameters;
    var c := calls[0];
    var s, tag, body := lead + Print(calls), OpeningTag(c), Parameters(c.params);
    assert calls[1..] == [] && Print(calls[1..]) == "";
    assert s == lead + (tag + (body + ""));
    StripName(c);
    ParametersBulletFree(c.params);
    forall i | 0 <= i < |x| && i != |lead|
      ensures x[i] != BULLET
    {
      assert x[i] == s[i];
      if |lead| < i < |lead| + |tag| {
        TagInside(c, i - |lead|);
      }
    }
  }

  lemma TagInside(c: Call, k: nat)
    requires GoodCall(c) && 0 < k < |OpeningTag(c)|
    ensures OpeningTag(c)[k] != BULLET
  {
    if k < |OpeningTag(c)| - 1 {
      NoGreaterInTag(c, k);
    }
  }

  lemma BehindOneBullet(seen: string, t: string)
    requires AtMostOneBullet(seen + t)
    ensures ClosedParam(Behind(if HasNoBullet(seen) then 2 else 1, t)).None?
  {
    var i := Find(t, [BULLET], 0);
    NothingClosed();
    hide ClosedParam;
    if i != -1 {
      BulletAt(t, i);
      assert (seen + t)[|seen| + i] == BULLET;
      var after := t[i + 1..];
      forall k | 0 <= k < |after|
        ensures after[k] != BULLET
      {
        assert (seen + t)[|seen| + i + 1 + k] == after[k];
      }
      BulletFree(after);
      forall k | 0 <= k < |seen|
        ensures seen[k] != BULLET
      {
        assert (seen + t)[k] == seen[k];
      }
      assert Behind(1, after) == "";
    }
  }

  /** Two calls delivered in one chunk: the parameters of the later one go to the earlier one. */
  lemma OneChunkFails(lead: string, calls: seq<Call>, i: nat)
    requires HasNoBullet(lead) && GoodCalls(calls) && NoControl(lead + Print(calls))
    requires 1 <= i < |calls| && calls[i].params != []
    ensures |ParseAll(FRESH, [lead + Print(calls)]).text| > |lead|
  {
    hide GoodCall, OpeningTag, Print, Parameters, NoControl, ClosedParam, Behind, SafeChunking, SafeEnd, Follows, StrictCalls, PlainCalls, LongTag;
    var s := lead + Print(calls);
    PrintUnfold(calls);
    var c, later := calls[0], Print(calls[1..]);
    var inside := Parameters(c.params) + later;
    StripName(c);
    ParametersBulletFree(c.params);
    BulletOpens(calls[1..]);
    BehindDrop(2, lead, Print(calls));
    BehindTag(c, inside);
    BehindDrop(1, Parameters(c.params), later);
    BehindFirst(1, later);
    assert calls[1..][i - 1] == calls[i];
    PrintHasClosed(calls[1..], i - 1);
    TailHasClosed(later);
    BehindNone(later[1..]);
    assert [s][..0] == [] && Join([s]) == "" + s;
    assert !SafeChunk("", s);
    StartFollows(lead, calls, |s|);
    assert FRESH.buffer + Join([s]) == Join([s]);
    FeedAllReads(calls, FRESH, InText(lead, calls), "", [s]);
  }

  lemma BehindNone(s: string)
    ensures Behind(0, s) == s
  {
  }

  lemma BehindTag(c: Call, rest: string)
    requires GoodCall(c)
    ensures Behind(2, OpeningTag(c) + rest) == Behind(1, rest)
  {
    var tag, inner := OpeningTag(c), OpeningTag(c)[1..];
    forall k | 0 <= k < |inner|
      ensures inner[k] != BULLET
    {
      if k < |inner| - 1 {
        NoGreaterInTag(c, k + 1);
      }
    }
    BehindFirst(2, tag + rest);
    assert (tag + rest)[1..] == inner + rest;
    BehindDrop(1, inner, rest);
  }

  lemma {:induction false} PrintHasClosed(calls: seq<Call>, i: nat)
    requires GoodCalls(calls) && i < |calls| && calls[i].params != []
    ensures ClosedParam(Print(calls)).Some?
    decreases i
  {
    hide GoodCall, OpeningTag, Print, Parameters, Word, Value, Parameter, ClosedParam;
    PrintUnfold(calls);
    var c, later := calls[0], Print(calls[1..]);
    if i == 0 {
      StripName(c);
      ParametersUnfold(c.params, later);
      var (k, v) := c.params[0];
      WordFacts(k, v);
      WholeParameter(k, v, Parameters(c.params[1..]) + later);
    } else {
      PrintHasClosed(calls[1..], i - 1);
      ClosedLift(Parameters(c.params), later);
    }
    ClosedLift(OpeningTag(c), Parameters(c.params) + later);
  }

  /** A key that ends like a closing tag closes its own parameter when the buffer ends right behind it. */
  lemma KeyClosesEarly(k: string)
    requires k != "" && '>' !in k && EndsLikeEnd(k)
    ensures ClosedParam(PARAMETER + k + ">") == Some(ParamMatch(0, k, "", |PARAMETER| + |k| + 1))
  {
    hide ClosedParam;
    assert Value("") by { assert !Contains("", END_PARAMETER); }
    assert "" + END_PARAMETER == "" + END_PARAMETER;
    var n := ClosesEarly(k, "", "", END_PARAMETER);
    assert PARAMETER + k + ">" + "" == PARAMETER + k + ">" && ""[..n] == "";
  }

  /** Why the converse asks for values without opening tags under such keys: the first parameter is cut
      in two, its value is read as a parameter of its own, and later ones of the same keys put both right. */
  lemma CutIsRepaired(name: string, k: string, a: string, x: string, y: string)
    requires Word(name) && Word(k) && EndsLikeEnd(k) && Word(a) && !EndsLikeEnd(a)
    requires Value(PARAMETER + a + ">" + x) && Value(x) && Value(y)
    requires var v := PARAMETER + a + ">" + x; NoControl(Print([Call("", name, [(k, v), (k, v), (a, y)])]))
    ensures var v := PARAMETER + a + ">" + x;
            var c := Call("", name, [(k, v), (k, v), (a, y)]);
            var front, rest := OpeningTag(c) + (PARAMETER + k + ">"), v + END_PARAMETER + (Parameter(k, v) + Parameter(a, y));
            && Join([front, rest]) == Print([c]) && !SafeChunking([c], "", [front, rest])
            && ParseAll(FRESH, [front, rest]) == Output("", Meaning([c]))
  {
    var v := PARAMETER + a + ">" + x;
    var c := Call("", name, [(k, v), (k, v), (a, y)]);
    var front, rest := OpeningTag(c) + (PARAMETER + k + ">"), v + END_PARAMETER + (Parameter(k, v) + Parameter(a, y));
    var others := [(a, x), (k, v), (a, y)];
    hide NoControl, Word, Value, OpeningTag, Parameter, Fed, Join, SafeChunking, TagDone, Collect, EndsLikeEnd;
    RepairedShape(c, k, v, a, x, y, front, rest);
    TwoChunks(front, rest);
    CutsThere(c, front, rest);
    FrontReads(c, k, front, rest);
    NoControlPiece(front + rest, |front|, |front + rest|);
    assert (front + rest)[|front|..|front + rest|] == rest;
    FrontIsDone(c, PARAMETER + k + ">", k);
    RestReads(name, map[k := ""], others, front, rest);
    ParseAllUnfold(FRESH, [front, rest]);
    SameCollected(k, v, a, x, y);
    OnlyCall(c);
    ThenEmpty(Output("", Meaning([c])));
  }

  lemma OnlyCall(c: Call)
    ensures Meaning([c]) == [ToolUse(c.name, Collect(map[], c.params))]
  {
    assert [c][1..] == [];
  }

  lemma RepairedShape(c: Call, k: string, v: string, a: string, x: string, y: string, front: string, rest: string)
    requires Word(c.name) && Word(k) && Word(a) && Value(v) && Value(x) && Value(y) && v == PARAMETER + a + ">" + x
    requires c == Call("", c.name, [(k, v), (k, v), (a, y)])
    requires front == OpeningTag(c) + (PARAMETER + k + ">") && rest == v + END_PARAMETER + (Parameter(k, v) + Parameter(a, y))
    ensures GoodCall(c) && GoodParams([(a, x), (k, v), (a, y)])
    ensures Print([c]) == front + rest && rest == Parameters([(a, x), (k, v), (a, y)])
    ensures |front| == |OpeningTag(c)| + |PARAMETER| + |k| + 1 && HasNoBullet(k)
  {
    hide OpeningTag, Value, EndsLikeEnd;
    var two := Parameter(k, v) + Parameter(a, y);
    ThreeParams(k, v, k, v, a, y);
    ThreeParams(a, x, k, v, a, y);
    PrintOne(c);
    hide Parameter, Parameters, Print;
    ParameterShape(k, v, two);
    ParameterShape(a, x, two);
    assert (PARAMETER + a + ">" + x) + END_PARAMETER + two == PARAMETER + a + ">" + (x + END_PARAMETER + two);
    assert OpeningTag(c) + (PARAMETER + k + ">" + rest) == (OpeningTag(c) + (PARAMETER + k + ">")) + rest;
  }

  lemma ParamsCons(key: string, value: string, ps: seq<(string, string)>)
    ensures Parameters([(key, value)] + ps) == Parameter(key, value) + Parameters(ps)
  {
    hide Parameter;
    assert ([(key, value)] + ps)[1..] == ps;
  }

  lemma ThreeParams(a: string, x: string, b: string, y: string, c: string, z: string)
    ensures Parameters([(a, x), (b, y), (c, z)]) == Parameter(a, x) + (Parameter(b, y) + Parameter(c, z))
  {
    ParamsCons(a, x, [(b, y)] + ([(c, z)] + []));
    ParamsCons(b, y, [(c, z)] + []);
    ParamsCons(c, z, []);
    hide Parameter;
    assert [(a, x), (b, y), (c, z)] == [(a, x)] + ([(b, y)] + ([(c, z)] + []));
    assert Parameter(c, z) + Parameters([]) == Parameter(c, z);
  }

  lemma PrintOne(c: Call)
    ensures Print([c]) == OpeningTag(c) + Parameters(c.params)
  {
    hide OpeningTag, Parameters;
    assert [c][1..] == [] && Parameters(c.params) + "" == Parameters(c.params);
  }

  lemma TwoChunks(front: string, rest: string)
    ensures Join([front, rest]) == front + rest && Join([rest]) == rest && [front, rest][1..] == [rest]
  {
    JoinAppend([front], rest);
    JoinAppend([], front);
    JoinAppend([], rest);
    assert [front] + [rest] == [front, rest] && [] + [front] == [front] && [] + [rest] == [rest];
    assert "" + front == front && "" + rest == rest;
  }

  lemma CutsThere(c: Call, front: string, rest: string)
    requires |c.params| == 3 && EndsLikeEnd(c.params[0].0) && front + rest == Print([c])
    requires |front| == |OpeningTag(c)| + |PARAMETER| + |c.params[0].0| + 1
    ensures !SafeChunking([c], "", [front, rest])
  {
    hide OpeningTag, EndsLikeEnd, SafeChunk, CutsOpen;
    PrintOne(c);
    TwoChunks(front, rest);
    CutsFirst(c, |rest|);
  }

  lemma CutsFirst(c: Call, left: nat)
    requires c.params != [] && EndsLikeEnd(c.params[0].0) && |c.params| > 1
    requires left + |PARAMETER| + |c.params[0].0| + 1 == |Parameters(c.params)|
    ensures CutsOpen([c], left) && left > |END_PARAMETER|
  {
    hide EndsLikeEnd;
    assert [c][1..] == [] && Print([]) == "";
    assert |Parameters(c.params[1..])| > 0;
  }

  lemma FrontIsDone(c: Call, b: string, k: string)
    requires GoodCall(c) && b == PARAMETER + k + ">" && HasNoBullet(k)
    ensures TagDone(OpeningTag(c) + b)
  {
    forall i | 0 <= i < |b|
      ensures b[i] != BULLET
    {
      assert b[i] == if i < |PARAMETER| then PARAMETER[i] else if i < |b| - 1 then k[i - |PARAMETER|] else '>';
    }
    TagIsDone(c, b);
  }

  lemma FrontReads(c: Call, k: string, front: string, rest: string)
    requires GoodCall(c) && Word(k) && EndsLikeEnd(k) && front == OpeningTag(c) + (PARAMETER + k + ">") && NoControl(front + rest)
    ensures Fed(FRESH, front) == (Parser(Parsing, "", c.name, map[k := ""]), EMPTY)
  {
    var tail := PARAMETER + k + ">";
    NoControlPiece(front + rest, 0, |front|);
    assert (front + rest)[0..|front|] == front && "" + front == front;
    NoControlToStrip(front);
    hide GoodCall, Word, EndsLikeEnd, OpeningTag, NoControl, StepOnce, Run, StripControl;
    var p, q := FRESH.(buffer := front), Parser(Parsing, tail, c.name, map[]);
    StepsToParameters(c, tail);
    KeyAlone(q, k);
    RunGo(p, p.(mode := Matching));
    RunGo(p.(mode := Matching), q);
    RunStop(q, Parser(Parsing, "", c.name, map[k := ""]));
  }

  /** The parser finds the bullet, and then the function tag. */
  lemma StepsToParameters(c: Call, tail: string)
    requires GoodCall(c)
    ensures var p := FRESH.(buffer := OpeningTag(c) + tail);
            && StepOnce(p) == Go(p.(mode := Matching), EMPTY)
            && StepOnce(p.(mode := Matching)) == Go(Parser(Parsing, tail, c.name, map[]), EMPTY)
  {
    hide GoodCall, OpeningTag, SearchFunction, Find, Strip, SafePrefix;
    var front := OpeningTag(c) + tail;
    TagOpens(c);
    FindBullet(front);
    WholeFunctionTag(c, tail);
    StripName(c);
    assert front[0..] == front && front[..0] == "" && front[|OpeningTag(c)|..] == tail;
  }

  /** The key alone closes its parameter, with an empty value. */
  lemma KeyAlone(q: Parser, k: string)
    requires Word(k) && EndsLikeEnd(k) && q == Parser(Parsing, PARAMETER + k + ">", q.name, map[])
    ensures StepOnce(q) == Stop(Parser(Parsing, "", q.name, map[k := ""]), EMPTY)
  {
    hide Word, EndsLikeEnd, ParamStep, ExtractParams;
    KeyTaken(q, k);
    StopsOnNothing(q, Parser(Parsing, "", q.name, map[k := ""]));
  }

  lemma KeyTaken(q: Parser, k: string)
    requires Word(k) && EndsLikeEnd(k) && q == Parser(Parsing, PARAMETER + k + ">", q.name, map[])
    ensures ExtractParams(q) == (Parser(Parsing, "", q.name, map[k := ""]), "")
  {
    hide Word, EndsLikeEnd, ExtractParams, Strip, Value, PARAMETER, END_PARAMETER;
    EmptyIsValue();
    var tag := PARAMETER + k + ">";
    assert tag == tag + "" && "" + END_PARAMETER == END_PARAMETER;
    EndIsThere();
    var n := TakesEarly(q, k, "", "", END_PARAMETER);
    assert ""[n..] == "" && ""[..n] == "";
  }

  lemma EndIsThere()
    ensures END_PARAMETER != ""
  {
  }

  lemma StopsOnNothing(q: Parser, r: Parser)
    requires ExtractParams(q) == (r, "") && r.buffer == ""
    ensures ParamStep(q) == Stop(r, EMPTY)
  {
    hide ExtractParams, ParamStep, Strip, Find;
    ParamStepOn(q);
    assert HasNoBullet(r.buffer);
  }

  lemma RunGo(p: Parser, q: Parser)
    requires StepOnce(p) == Go(q, EMPTY)
    ensures Run(p) == Run(q)
  {
    ThenEmpty(Run(q).1);
    hide StepOnce;
  }

  lemma RunStop(p: Parser, q: Parser)
    requires StepOnce(p) == Stop(q, EMPTY)
    ensures Run(p) == (q, EMPTY)
  {
    hide StepOnce;
  }

  lemma TagOpens(c: Call)
    ensures OpeningTag(c) != "" && OpeningTag(c)[0] == BULLET
  {
  }

  lemma EmptyIsValue()
    ensures Value("") && Strip("") == ""
  {
  }

  lemma FindBullet(s: string)
    requires s != "" && s[0] == BULLET
    ensures Find(s, [BULLET], 0) == 0
  {
    BulletAt(s, 0);
    FindIs(s, [BULLET], 0, 0);
  }

  /** One chunk without a bullet that holds all the parameters. */
  lemma RestReads(name: string, done: map<string, string>, ps: seq<(string, string)>, seen: string, rest: string)
    requires GoodParams(ps) && ps != [] && !EndsLikeEnd(ps[0].0) && rest == Parameters(ps) && NoControl(rest) && TagDone(seen)
    ensures ParseAll(Parser(Parsing, "", name, done), [rest]) == Output("", [ToolUse(name, Collect(done, ps))])
  {
    var r, pos, calls := Parser(Parsing, "", name, done), InCall(name, done, ps, []), [Call("", name, ps)];
    TwoChunks("", rest);
    WaitsForAll(r, pos, rest);
    SafeRest(calls, r, pos, seen, rest);
    DueOne(name, done, ps);
    assert "" + rest == rest;
    hide GoodParams, Parameters, NoControl, Collect, EndsLikeEnd, TagDone, Waits, Follows, Linked, SafeChunking, Due, ParseAll;
    FeedAllReads(calls, r, pos, seen, [rest]);
  }

  lemma DueOne(name: string, done: map<string, string>, ps: seq<(string, string)>)
    ensures Due(InCall(name, done, ps, [])) == Output("", [ToolUse(name, Collect(done, ps))])
  {
    hide Collect;
    assert [ToolUse(name, Collect(done, ps))] + [] == [ToolUse(name, Collect(done, ps))];
  }

  lemma SafeRest(calls: seq<Call>, r: Parser, pos: Position, seen: string, rest: string)
    requires pos.InCall? && pos.calls == [] && calls == [Call("", pos.name, pos.params)] && r.buffer == ""
    requires GoodParams(pos.params) && rest == Parameters(pos.params) && TagDone(seen)
    ensures Linked(seen, r, pos) && Follows(AtCall(calls), pos, |rest|) && SafeChunking(calls, seen, [rest])
  {
    hide GoodParams, Parameters, TagDone, CutsOpen, ExposedIn, ClosedParam, Join, Follows, SafeChunk, Safe, HasNoBullet;
    ParametersBulletFree(pos.params);
    TwoChunks("", rest);
    SameCallFollows(calls, pos, |rest|);
    RestIsSafe(seen, rest);
    ExposedNowhere(calls);
    assert [rest][1..] == [] && Join([]) == "" && seen[|seen|..] == "" by { JoinNothing(); }
  }

  lemma SameCallFollows(calls: seq<Call>, pos: Position, left: nat)
    requires pos.InCall? && pos.calls == [] && calls == [Call("", pos.name, pos.params)]
    ensures Follows(AtCall(calls), pos, left)
  {
    hide ExposedIn, CutsOpen, PlainParams;
    CallFollows(calls, left);
    assert calls[1..] == [];
  }

  lemma RestIsSafe(seen: string, rest: string)
    requires TagDone(seen) && HasNoBullet(rest)
    ensures SafeChunk(seen, rest)
  {
    hide TagDone, ClosedParam, LongTag;
    BulletFree(rest);
    TagHasBullet(seen);
    TagDoneKeeps(seen, rest);
    assert Safe(1, rest);
  }

  lemma WaitsForAll(r: Parser, pos: Position, rest: string)
    requires pos.InCall? && pos.params != [] && pos.calls == [] && GoodParams(pos.params) && !EndsLikeEnd(pos.params[0].0)
    requires r == Parser(Parsing, "", pos.name, pos.done) && rest == Parameters(pos.params)
    ensures Waits(r, pos, rest)
  {
    hide Parameters, GoodParams;
    assert "" + rest == rest && Print([]) == "" && rest + "" == rest;
  }

  lemma ExposedNowhere(calls: seq<Call>)
    requires |calls| == 1
    ensures !CutsOpen(calls, 0)
  {
    if ExposedIn(calls[0].params, |Print(calls[1..])|, 0) {
      ExposedInside(calls[0].params, |Print(calls[1..])|, 0);
    }
  }

  lemma SameCollected(k: string, v: string, a: string, x: string, y: string)
    requires a != k
    ensures Collect(map[k := ""], [(a, x), (k, v), (a, y)]) == Collect(map[], [(k, v), (k, v), (a, y)])
  {
    CollectThree(map[k := ""], a, x, k, v, a, y);
    CollectThree(map[], k, v, k, v, a, y);
  }

  lemma CollectNext(done: map<string, string>, key: string, value: string, ps: seq<(string, string)>)
    ensures Collect(done, [(key, value)] + ps) == Collect(done[key := value], ps)
  {
    assert ([(key, value)] + ps)[1..] == ps;
  }

  lemma CollectThree(done: map<string, string>, a: string, x: string, b: string, y: string, c: string, z: string)
    ensures Collect(done, [(a, x), (b, y), (c, z)]) == done[a := x][b := y][c := z]
  {
    CollectNext(done, a, x, [(b, y)] + ([(c, z)] + []));
    CollectNext(done[a := x], b, y, [(c, z)] + []);
    CollectNext(done[a := x][b := y], c, z, []);
    CollectNothing(done[a := x][b := y][c := z]);
    assert [(a, x), (b, y), (c, z)] == [(a, x)] + ([(b, y)] + ([(c, z)] + []));
  }
}
