/** The three-state parser that recovers tool calls written as text. */
module HeuristicParser {
  import opened Strings
  import opened Wrappers

  datatype Mode = TextMode | Matching | Parsing
  datatype ToolUse = ToolUse(name: string, input: map<string, string>)
  datatype Parser = Parser(mode: Mode, buffer: string, name: string, params: map<string, string>)

  /** Visible text and finished calls, in the order they come out. */
  datatype Output = Output(text: string, tools: seq<ToolUse>) {
    function Then(next: Output): Output {
      Output(text + next.text, tools + next.tools)
    }
  }

  const BULLET: char := '\U{25CF}'
  const FUNCTION := "<function="
  const PARAMETER := "<parameter="
  const END_PARAMETER := "</parameter>"
  const MAX_TAG := 100
  const EMPTY := Output("", [])
  const FRESH := Parser(TextMode, "", "", map[])

  // ---------------------------------------------------------------- character classes and patterns

  function SkipSpace(s: string, i: nat): (r: nat)
    requires i <= |s|
    ensures i <= r <= |s|
    ensures forall k :: i <= k < r ==> IsSpace(s[k])
    ensures r < |s| ==> !IsSpace(s[r])
    decreases |s| - i
  {
    if i < |s| && IsSpace(s[i]) then SkipSpace(s, i + 1) else i
  }

  /** A tag with a non-empty body up to the next '>': where it starts, its body, where it ends. */
  datatype Tag = Tag(start: nat, body: string, end: nat)

  /** `<opener>([^>]+)>` matched at position j of s, reported as starting at i. */
  function TagFrom(s: string, i: nat, j: nat, opener: string): (r: Option<Tag>)
    ensures r.Some? ==> i == r.value.start && j + |opener| < r.value.end <= |s| && '>' !in r.value.body
    ensures r.Some? ==> At(s, opener, j) && s[j + |opener|..r.value.end] == r.value.body + ">"
  {
    if !At(s, opener, j) then None
    else
      var g := Find(s, ">", j + |opener|);
      if g <= j + |opener| then None
      else
        assert s[g..g + 1] == ">";
        BodyHasNone(s, j + |opener|, g);
        Some(Tag(i, s[j + |opener|..g], g + 1))
  }

  lemma BodyHasNone(s: string, from: nat, g: nat)
    requires from <= g <= |s| && forall k :: from <= k < g ==> !At(s, ">", k)
    ensures '>' !in s[from..g]
  {
    forall k | from <= k < g
      ensures s[k] != '>'
    {
      assert !At(s, ">", k);
      assert s[k..k + 1] == [s[k]];
    }
  }

  /** The function pattern at position i: the bullet, optional white space, the opening tag. */
  function FunctionAt(s: string, i: nat): Option<Tag>
    requires i <= |s|
  {
    if i < |s| && s[i] == BULLET then TagFrom(s, i, SkipSpace(s, i + 1), FUNCTION) else None
  }

  /** Leftmost match of the function pattern at or after i. */
  function SearchFunction(s: string, i: nat): (r: Option<Tag>)
    requires i <= |s|
    ensures r.Some? ==> i <= r.value.start < r.value.end <= |s| && FunctionAt(s, r.value.start) == r
    ensures forall k :: i <= k < (if r.Some? then r.value.start else |s| + 1) ==> k <= |s| && FunctionAt(s, k).None?
    decreases |s| - i
  {
    if FunctionAt(s, i).Some? then FunctionAt(s, i)
    else if i < |s| then SearchFunction(s, i + 1)
    else None
  }

  /** Leftmost opening parameter tag at or after i. */
  function SearchParameter(s: string, i: nat): (r: Option<Tag>)
    requires i <= |s|
    ensures r.Some? ==> i <= r.value.start < r.value.end <= |s| && TagFrom(s, r.value.start, r.value.start, PARAMETER) == r
    ensures forall k :: i <= k < (if r.Some? then r.value.start else |s| + 1) ==> TagFrom(s, k, k, PARAMETER).None?
    decreases |s| - i
  {
    if TagFrom(s, i, i, PARAMETER).Some? then TagFrom(s, i, i, PARAMETER)
    else if i < |s| then SearchParameter(s, i + 1)
    else None
  }

  datatype ParamMatch = ParamMatch(start: nat, key: string, value: string, end: nat)

  /** `<parameter=([^>]+)>(.*?)(?:</parameter>|$)`: the value runs to the first closing tag or,
      without one, to the end of the text (before a final newline). */
  function ParamPattern(s: string): (r: Option<ParamMatch>)
    ensures r.Some? ==> r.value.start < r.value.end <= |s|
  {
    var open := SearchParameter(s, 0);
    if open.None? then None
    else
      var tag := open.value;
      var close := Find(s, END_PARAMETER, tag.end);
      if close != -1 then
        Some(ParamMatch(tag.start, tag.body, s[tag.end..close], close + |END_PARAMETER|))
      else
        var stop := if tag.end < |s| && s[|s| - 1] == '\n' then |s| - 1 else |s|;
        Some(ParamMatch(tag.start, tag.body, s[tag.end..stop], stop))
  }

  // ---------------------------------------------------------------- control tokens

  /** Length of the run of characters other than '|' and '>' starting at i. */
  function PlainRun(s: string, i: nat): (r: nat)
    requires i <= |s|
    ensures i + r <= |s|
    decreases |s| - i
  {
    if i < |s| && s[i] != '|' && s[i] != '>' then 1 + PlainRun(s, i + 1) else 0
  }

  /** Length of the control token at the front of s (`<\|[^|>]{1,80}\|>`), 0 if there is none. */
  function ControlToken(s: string): (r: nat)
    ensures r <= |s|
  {
    if |s| >= 2 && s[..2] == "<|" && 1 <= PlainRun(s, 2) <= 80 && At(s, "|>", 2 + PlainRun(s, 2))
    then PlainRun(s, 2) + 4 else 0
  }

  function StripControl(s: string): string
    decreases |s|
  {
    if s == "" then ""
    else if ControlToken(s) > 0 then StripControl(s[ControlToken(s)..])
    else [s[0]] + StripControl(s[1..])
  }

  // ---------------------------------------------------------------- the parser as a function

  function Rank(mode: Mode): nat {
    match mode case Matching => 0 case TextMode => 1 case Parsing => 2
  }

  datatype Step = Stop(p: Parser, out: Output) | Go(p: Parser, out: Output)

  /** Where the safe-to-show prefix of the text ends: before an unfinished control token. */
  function SafePrefix(buffer: string): (r: nat)
    ensures r <= |buffer|
  {
    var start := RFind(buffer, "<|");
    if start != -1 && Find(buffer, "|>", start) == -1 then start else 0
  }

  function TextStep(p: Parser): Step {
    var bullet := Find(p.buffer, [BULLET], 0);
    if bullet != -1 then
      Go(p.(mode := Matching, buffer := p.buffer[bullet..]), Output(p.buffer[..bullet], []))
    else
      var safe := SafePrefix(p.buffer);
      if safe > 0 then Stop(p.(buffer := p.buffer[safe..]), Output(p.buffer[..safe], []))
      else Stop(p.(buffer := ""), Output(p.buffer, []))
  }

  function MatchStep(p: Parser): Step {
    var tag := SearchFunction(p.buffer, 0);
    if tag.Some? then
      Go(Parser(Parsing, p.buffer[tag.value.end..], Strip(tag.value.body), map[]), EMPTY)
    else if |p.buffer| > MAX_TAG then
      Go(p.(mode := TextMode, buffer := p.buffer[1..]), Output(p.buffer[..1], []))
    else Stop(p, EMPTY)
  }

  /** The match found in the buffer, if it is a closed parameter. */
  function ClosedParam(buffer: string): (r: Option<ParamMatch>)
    ensures r.Some? ==> r.value.start < r.value.end <= |buffer|
  {
    var m := ParamPattern(buffer);
    if m.Some? && Contains(buffer[m.value.start..m.value.end], END_PARAMETER) then m else None
  }

  /** Takes closed parameters off the buffer; text in front of one is shown. */
  function ExtractParams(p: Parser): (r: (Parser, string))
    ensures |r.0.buffer| <= |p.buffer| && r.0.mode == p.mode && r.0.name == p.name
    ensures ClosedParam(r.0.buffer).None?
    decreases |p.buffer|
  {
    var m := ClosedParam(p.buffer);
    if m.None? then (p, "")
    else
      var (q, text) := ExtractParams(p.(buffer := p.buffer[m.value.end..],
                                        params := p.params[Strip(m.value.key) := Strip(m.value.value)]));
      (q, p.buffer[..m.value.start] + text)
  }

  function ParamStep(p: Parser): Step {
    var (q, text) := ExtractParams(p);
    var call := [ToolUse(q.name, q.params)];
    var bullet := Find(q.buffer, [BULLET], 0);
    if bullet != -1 then
      Go(q.(mode := TextMode, buffer := q.buffer[bullet..]), Output(text + q.buffer[..bullet], call))
    else if q.buffer != "" && !("<" <= Strip(q.buffer)) && !Contains(q.buffer, PARAMETER) then
      Go(q.(mode := TextMode, buffer := ""), Output(text + q.buffer, call))
    else Stop(q, Output(text, []))
  }

  function StepOnce(p: Parser): (r: Step)
    ensures r.Go? ==> |r.p.buffer| < |p.buffer| || (|r.p.buffer| == |p.buffer| && Rank(r.p.mode) < Rank(p.mode))
  {
    match p.mode
    case TextMode => TextStep(p)
    case Matching => MatchStep(p)
    case Parsing => ParamStep(p)
  }

  /** Works the buffer off until the parser has to wait for more text. */
  function Run(p: Parser): (Parser, Output)
    decreases |p.buffer|, Rank(p.mode)
  {
    var step := StepOnce(p);
    if step.Stop? then (step.p, step.out)
    else
      var (q, out) := Run(step.p);
      (q, step.out.Then(out))
  }

  function Fed(p: Parser, text: string): (Parser, Output) {
    Run(p.(buffer := StripControl(p.buffer + text)))
  }

  function Flushed(p: Parser): (Parser, seq<ToolUse>) {
    var buffer := StripControl(p.buffer);
    if p.mode != Parsing then (p.(buffer := buffer), [])
    else
      var open := SearchParameter(buffer, 0);
      var params :=
        if open.None? then p.params
        else p.params[Strip(open.value.body) := Strip(buffer[open.value.end..])];
      (Parser(TextMode, "", p.name, params), [ToolUse(p.name, params)])
  }

  // ---------------------------------------------------------------- the parser object

  class HeuristicToolParser {
    var mode: Mode
    var buffer: string
    var name: string
    var params: map<string, string>

    function Value(): Parser
      reads this
    {
      Parser(mode, buffer, name, params)
    }

    constructor ()
      ensures Value() == Parser(TextMode, "", "", map[])
    {
      mode, buffer, name, params := TextMode, "", "", map[];
    }

    /** Takes the closed parameters off the buffer and returns the text found between them. */
    method TakeParams() returns (text: string)
      modifies this
      ensures (Value(), text) == ExtractParams(old(Value()))
    {
      hide ParamPattern, Strip, Contains, ExtractParams;
      text := "";
      ghost var start := Value();
      while true
        invariant ExtractParams(start).0 == ExtractParams(Value()).0
        invariant ExtractParams(start).1 == text + ExtractParams(Value()).1
        decreases |buffer|
      {
        ExtractOne(Value(), text);
        var m := ParamPattern(buffer);
        if m.Some? && Contains(buffer[m.value.start..m.value.end], END_PARAMETER) {
          text := text + buffer[..m.value.start];
          params := params[Strip(m.value.key) := Strip(m.value.value)];
          buffer := buffer[m.value.end..];
        } else {
          break;
        }
      }
    }

    /** The text state: look for the bullet. */
    method ScanText() returns (go: bool, out: Output)
      requires mode == TextMode
      modifies this
      ensures (if go then Go(Value(), out) else Stop(Value(), out)) == TextStep(old(Value()))
      ensures go ==> |buffer| <= |old(buffer)| && mode == Matching
    {
      hide Find, SafePrefix;
      var bullet := Find(buffer, [BULLET], 0);
      if bullet != -1 {
        out := Output(buffer[..bullet], []);
        buffer := buffer[bullet..];
        mode := Matching;
        return true, out;
      }
      var safe := SafePrefix(buffer);
      if safe > 0 {
        out := Output(buffer[..safe], []);
        buffer := buffer[safe..];
        return false, out;
      }
      out := Output(buffer, []);
      buffer := "";
      return false, out;
    }

    /** The matching state: wait for the whole function tag, but not for more than MAX_TAG characters. */
    method MatchFunction() returns (go: bool, out: Output)
      requires mode == Matching
      modifies this
      ensures (if go then Go(Value(), out) else Stop(Value(), out)) == MatchStep(old(Value()))
      ensures go ==> |buffer| < |old(buffer)| && mode != Matching
    {
      hide SearchFunction, Strip;
      out := Output("", []);
      var tag := SearchFunction(buffer, 0);
      if tag.Some? {
        name := Strip(tag.value.body);
        params := map[];
        buffer := buffer[tag.value.end..];
        mode := Parsing;
        return true, out;
      }
      if |buffer| > MAX_TAG {
        out := Output(buffer[..1], []);
        buffer := buffer[1..];
        mode := TextMode;
        return true, out;
      }
      return false, out;
    }

    /** The parameter state: take closed parameters, then see whether the call is over. */
    method ParseParameters() returns (finished: bool, out: Output)
      requires mode == Parsing
      modifies this
      ensures (if finished then Go(Value(), out) else Stop(Value(), out)) == ParamStep(old(Value()))
      ensures finished ==> |buffer| <= |old(buffer)| && mode == TextMode
    {
      hide Find, Contains, Strip, ExtractParams;
      var text := TakeParams();
      finished := false;
      var bullet := Find(buffer, [BULLET], 0);
      if bullet != -1 {
        text := text + buffer[..bullet];
        buffer := buffer[bullet..];
        finished := true;
      } else if buffer != "" && !("<" <= Strip(buffer)) {
        if !Contains(buffer, PARAMETER) {
          text := text + buffer;
          buffer := "";
          finished := true;
        }
      }
      if finished {
        out := Output(text, [ToolUse(name, params)]);
        mode := TextMode;
      } else {
        out := Output(text, []);
      }
    }

    /** Works on any text in any state, and always comes to an end. */
    method Feed(text: string) returns (out: Output)
      modifies this
      ensures (Value(), out) == Fed(old(Value()), text)
    {
      hide Run, StripControl, TextStep, MatchStep, ParamStep;
      buffer := StripControl(buffer + text);
      ghost var start := Value();
      out := Output("", []);
      ThenEmpty(Run(start).1);
      var go := true;
      while go
        invariant Run(start) == if go then (Run(Value()).0, out.Then(Run(Value()).1)) else (Value(), out)
        decreases go, |buffer|, Rank(mode)
      {
        var more;
        if mode == TextMode {
          RunUnfold(Value(), out);
          go, more := ScanText();
          out := out.Then(more);
        }
        if go && mode == Matching {
          RunUnfold(Value(), out);
          go, more := MatchFunction();
          out := out.Then(more);
        }
        if go && mode == Parsing {
          RunUnfold(Value(), out);
          go, more := ParseParameters();
          out := out.Then(more);
        }
      }
    }

    method Flush() returns (tools: seq<ToolUse>)
      modifies this
      ensures (Value(), tools) == Flushed(old(Value()))
    {
      buffer := StripControl(buffer);
      tools := [];
      if mode == Parsing {
        var open := SearchParameter(buffer, 0);
        if open.Some? {
          params := params[Strip(open.value.body) := Strip(buffer[open.value.end..])];
        }
        tools := [ToolUse(name, params)];
        mode := TextMode;
        buffer := "";
      }
    }
  }

  // ---------------------------------------------------------------- unfolding Run, one mode at a time

  lemma ThenEmpty(out: Output)
    ensures EMPTY.Then(out) == out == out.Then(EMPTY)
  {
  }

  lemma ThenAssoc(a: Output, b: Output, c: Output)
    ensures a.Then(b).Then(c) == a.Then(b.Then(c))
  {
  }

  lemma ExtractOne(p: Parser, text: string)
    ensures var m := ClosedParam(p.buffer);
            if m.None? then ExtractParams(p) == (p, "") && text + "" == text
            else
              var q := p.(buffer := p.buffer[m.value.end..],
                          params := p.params[Strip(m.value.key) := Strip(m.value.value)]);
              && ExtractParams(p).0 == ExtractParams(q).0
              && text + ExtractParams(p).1 == (text + p.buffer[..m.value.start]) + ExtractParams(q).1
  {
    hide ClosedParam, Strip;
    var m := ClosedParam(p.buffer);
    if m.Some? {
      var q := p.(buffer := p.buffer[m.value.end..], params := p.params[Strip(m.value.key) := Strip(m.value.value)]);
      assert ExtractParams(p).1 == p.buffer[..m.value.start] + ExtractParams(q).1;
    }
  }

  /** What Run makes of a state whose next step is known, after the output `out`. */
  ghost predicate Unfolded(p: Parser, out: Output, step: Step) {
    (Run(p).0, out.Then(Run(p).1)) ==
      if step.Stop? then (step.p, out.Then(step.out))
      else (Run(step.p).0, out.Then(step.out).Then(Run(step.p).1))
  }

  lemma RunUnfold(p: Parser, out: Output)
    ensures Unfolded(p, out, StepOnce(p))
  {
    hide TextStep, MatchStep, ParamStep;
    var step := StepOnce(p);
    if step.Go? {
      ThenAssoc(out, step.out, Run(step.p).1);
    }
  }

  // ---------------------------------------------------------------- text without control tokens

  ghost predicate NoControl(s: string) {
    forall i :: 0 <= i < |s| - 1 ==> !(s[i] == '<' && s[i + 1] == '|')
  }

  lemma NoControlPiece(s: string, i: nat, j: nat)
    requires NoControl(s) && i <= j <= |s|
    ensures NoControl(s[i..j])
  {
    var p := s[i..j];
    forall k | 0 <= k < |p| - 1
      ensures !(p[k] == '<' && p[k + 1] == '|')
    {
      assert p[k] == s[i + k] && p[k + 1] == s[i + k + 1];
    }
  }

  lemma {:induction false} NoControlToStrip(s: string)
    requires NoControl(s)
    ensures StripControl(s) == s
    decreases |s|
  {
    if s != "" {
      assert ControlToken(s) == 0 by {
        if |s| >= 2 {
          assert s[..2] == [s[0], s[1]];
        }
      }
      NoControlPiece(s, 1, |s|);
      assert s[1..|s|] == s[1..];
      NoControlToStrip(s[1..]);
    }
  }

  lemma NoControlToHold(s: string)
    requires NoControl(s)
    ensures SafePrefix(s) == 0
  {
    forall i
      ensures !At(s, "<|", i)
    {
      if 0 <= i < |s| - 1 {
        assert s[i..i + 2] == [s[i], s[i + 1]];
      }
    }
  }
}
