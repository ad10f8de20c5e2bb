/** What the tool parser does with text that is no well-formed call: control tokens, whole and cut;
    bullets without a function tag; text around parameters and behind a call; parameters never closed. */
module ParserLaws {
  import opened Strings
  import opened Wrappers
  import opened HeuristicParser
  import opened CanonicalCalls

  // ---------------------------------------------------------------- control tokens

  /** What stands between the ends of a control token. */
  predicate TokenName(t: string) {
    1 <= |t| <= 80 && '|' !in t && '>' !in t
  }

  function Token(t: string): string {
    "<|" + t + "|>"
  }

  lemma {:induction false} RunOf(s: string, i: nat, n: nat)
    requires i + n < |s| && (s[i + n] == '|' || s[i + n] == '>')
    requires forall k :: i <= k < i + n ==> s[k] != '|' && s[k] != '>'
    ensures PlainRun(s, i) == n
    decreases n
  {
    if n > 0 {
      RunOf(s, i + 1, n - 1);
    }
  }

  lemma {:induction false} RunIsPlain(s: string, i: nat)
    requires i <= |s|
    ensures forall k :: i <= k < i + PlainRun(s, i) ==> s[k] != '|' && s[k] != '>'
    decreases |s| - i
  {
    if i < |s| && s[i] != '|' && s[i] != '>' {
      RunIsPlain(s, i + 1);
    }
  }

  /** A control token is found where one stands, and only there. */
  lemma TokenIsFound(t: string, rest: string)
    requires TokenName(t)
    ensures ControlToken(Token(t) + rest) == |Token(t)|
  {
    var s := Token(t) + rest;
    assert s[..2] == "<|";
    forall k | 2 <= k < 2 + |t|
      ensures s[k] != '|' && s[k] != '>'
    {
      assert s[k] == t[k - 2];
    }
    RunOf(s, 2, |t|);
    assert s[2 + |t|..2 + |t| + 2] == "|>";
  }

  lemma FoundIsToken(s: string)
    requires ControlToken(s) > 0
    ensures var n := ControlToken(s);
            4 < n <= |s| && TokenName(s[2..n - 2]) && s[..n] == Token(s[2..n - 2])
  {
    var n := ControlToken(s);
    RunIsPlain(s, 2);
    assert s[n - 2..n] == "|>";
    assert s[..n] == s[..2] + s[2..n - 2] + s[n - 2..n];
  }

  ghost predicate NoTokenIn(a: string, s: string) {
    forall i :: 0 <= i < |a| ==> ControlToken((a + s)[i..]) == 0
  }

  /** What comes before the first token stays. */
  lemma {:induction false} StripsBehind(a: string, s: string)
    requires NoTokenIn(a, s)
    ensures StripControl(a + s) == a + StripControl(s)
  {
    hide ControlToken;
    if a == "" {
      assert a + s == s;
    } else {
      assert (a + s)[0..] == a + s && ControlToken((a + s)[0..]) == 0;
      var b := a[1..];
      assert (a + s)[1..] == b + s;
      forall i | 0 <= i < |b|
        ensures ControlToken((b + s)[i..]) == 0
      {
        assert (b + s)[i..] == (a + s)[i + 1..];
      }
      StripsBehind(b, s);
      assert [a[0]] + b == a;
    }
  }

  lemma NoTokenWithout(s: string)
    requires !("<|" <= s)
    ensures ControlToken(s) == 0
  {
  }

  /** A token goes, and what stands before and behind it stays or goes as if it were not there. */
  lemma TokenGoes(a: string, t: string, b: string)
    requires NoControl(a) && TokenName(t)
    ensures StripControl(a + Token(t) + b) == a + StripControl(b)
  {
    var s := Token(t) + b;
    assert a + Token(t) + b == a + s;
    forall i | 0 <= i < |a|
      ensures ControlToken((a + s)[i..]) == 0
    {
      assert (a + s)[i..][0] == a[i] && (a + s)[i..][1] == if i + 1 < |a| then a[i + 1] else '<';
      NoTokenWithout((a + s)[i..]);
    }
    StripsBehind(a, s);
    TokenIsFound(t, b);
    assert s[|Token(t)|..] == b;
  }

  /** Fed in one piece with what surrounds it, a token makes no difference at all. */
  lemma TokenMakesNoDifference(p: Parser, a: string, t: string, b: string)
    requires NoControl(p.buffer + a + b) && TokenName(t)
    ensures Fed(p, a + Token(t) + b) == Fed(p, a + b)
  {
    hide StripControl, Run;
    var front, all := p.buffer + a, p.buffer + a + b;
    NoControlPiece(all, 0, |front|);
    NoControlPiece(all, |front|, |all|);
    assert all[0..|front|] == front && all[|front|..|all|] == b;
    TokenGoes(front, t, b);
    NoControlToStrip(b);
    NoControlToStrip(all);
    assert p.buffer + (a + Token(t) + b) == front + Token(t) + b;
    assert p.buffer + (a + b) == all;
  }

  // ---------------------------------------------------------------- text without a function tag

  ghost predicate Untagged(s: string) {
    forall i :: !At(s, FUNCTION, i)
  }

  lemma UntaggedHasNone(s: string)
    requires Untagged(s)
    ensures SearchFunction(s, 0).None?
  {
  }

  lemma UntaggedRest(s: string, n: nat)
    requires Untagged(s) && n <= |s|
    ensures Untagged(s[n..])
  {
    forall i
      ensures !At(s[n..], FUNCTION, i)
    {
      if At(s[n..], FUNCTION, i) {
        assert s[..n] + s[n..] == s;
        AtShift(s[..n], s[n..], FUNCTION, i);
      }
    }
  }

  /** Where the parser stops without a call: idle; behind a bullet with too little to tell; or behind
      the beginning of a control token with other text before it. */
  ghost predicate Stops(q: Parser, shown: string) {
    match q.mode
    case Parsing => false
    case Matching => |q.buffer| <= MAX_TAG
    case TextMode => q.buffer == "" || (shown != "" && "<|" <= q.buffer && Find(q.buffer, "|>", 0) == -1 && HasNoBullet(q.buffer))
  }

  /** Text without a function tag is shown or held, to the last character. */
  lemma {:induction false} RunLosesNothing(p: Parser)
    requires p.mode != Parsing && Untagged(p.buffer)
    ensures var (q, out) := Run(p);
            && out.text + q.buffer == p.buffer && out.tools == [] && q.name == p.name && q.params == p.params
            && Stops(q, out.text)
    decreases |p.buffer|, Rank(p.mode)
  {
    hide TextStep, MatchStep, ParamStep, Stops;
    var step := StepOnce(p);
    if step.Go? {
      OneStepLosesNothing(p);
      RunLosesNothing(step.p);
      var (q, out) := Run(step.p);
      assert (step.out.text + out.text) + q.buffer == step.out.text + (out.text + q.buffer);
      MoreShown(q, step.out.text, out.text);
    } else {
      OneStepLosesNothing(p);
    }
  }

  lemma MoreShown(q: Parser, before: string, shown: string)
    requires Stops(q, shown)
    ensures Stops(q, before + shown)
  {
  }

  lemma OneStepLosesNothing(p: Parser)
    requires p.mode != Parsing && Untagged(p.buffer)
    ensures var step := StepOnce(p);
            && step.out.text + step.p.buffer == p.buffer && step.out.tools == [] && step.p.name == p.name && step.p.params == p.params
            && (step.Go? ==> step.p.mode != Parsing && Untagged(step.p.buffer))
            && (step.Stop? ==> Stops(step.p, step.out.text))
  {
    hide Stops, Untagged, TextStep, MatchStep, ParamStep;
    if p.mode == Matching {
      MatchLosesNothing(p);
    } else {
      TextLosesNothing(p);
    }
  }

  lemma MatchLosesNothing(p: Parser)
    requires Untagged(p.buffer)
    ensures var step := MatchStep(p);
            && step.out.text + step.p.buffer == p.buffer && step.out.tools == [] && step.p.name == p.name && step.p.params == p.params
            && (step.Go? ==> step.p.mode == TextMode && Untagged(step.p.buffer))
            && (step.Stop? && p.mode == Matching ==> Stops(step.p, step.out.text))
  {
    hide SearchFunction, Untagged;
    UntaggedHasNone(p.buffer);
    if |p.buffer| > MAX_TAG {
      UntaggedRest(p.buffer, 1);
      RestOf(p.buffer[..1], p.buffer[1..]);
    }
  }

  lemma TextLosesNothing(p: Parser)
    requires Untagged(p.buffer)
    ensures var step := TextStep(p);
            && step.out.text + step.p.buffer == p.buffer && step.out.tools == [] && step.p.name == p.name && step.p.params == p.params
            && (step.Go? ==> step.p.mode == Matching && Untagged(step.p.buffer))
            && (step.Stop? && p.mode == TextMode ==> Stops(step.p, step.out.text))
  {
    hide Find, SafePrefix, Untagged;
    var i, safe := Find(p.buffer, [BULLET], 0), SafePrefix(p.buffer);
    if i != -1 {
      UntaggedRest(p.buffer, i);
    } else if safe > 0 {
      HeldPart(p.buffer);
    }
  }

  lemma HeldPart(s: string)
    requires Find(s, [BULLET], 0) == -1 && SafePrefix(s) > 0
    ensures var held := s[SafePrefix(s)..];
            "<|" <= held && Find(held, "|>", 0) == -1 && HasNoBullet(held)
  {
    var n := SafePrefix(s);
    var held := s[n..];
    assert s[n..n + 2] == "<|" && held[..2] == s[n..n + 2];
    FirstBulletOf(s);
    var i := Find(held, "|>", 0);
    if i != -1 {
      assert s[..n] + held == s;
      AtShift(s[..n], held, "|>", i);
    }
  }

  /** The same for a feed: but for control tokens all of the text is shown or held. */
  lemma TextSurvives(p: Parser, s: string)
    requires p.mode != Parsing && Untagged(StripControl(p.buffer + s))
    ensures var (q, out) := Fed(p, s);
            out.text + q.buffer == StripControl(p.buffer + s) && out.tools == [] && Stops(q, out.text)
  {
    hide StripControl, Run, Stops;
    RunLosesNothing(p.(buffer := StripControl(p.buffer + s)));
  }

  // ---------------------------------------------------------------- tokens that arrive in pieces

  ghost predicate Idle(p: Parser) {
    p.mode == TextMode && p.buffer == ""
  }

  /** Text without a bullet, in an idle parser: all is shown, but for the unfinished token held back. */
  lemma PlainFeed(p: Parser, s: string)
    requires p.mode == TextMode && HasNoBullet(p.buffer + s) && StripControl(p.buffer + s) == p.buffer + s
    ensures var all := p.buffer + s;
            var n := if SafePrefix(all) > 0 then SafePrefix(all) else |all|;
            Fed(p, s) == (p.(buffer := all[n..]), Output(all[..n], []))
  {
    hide StripControl, SafePrefix;
    var all := p.buffer + s;
    BulletFree(all);
    hide Find;
    assert SafePrefix(all) == 0 ==> all[|all|..] == "" && all[..|all|] == all;
    assert StepOnce(p.(buffer := all)).Stop?;
  }

  /** A token by itself shows nothing and leaves an idle parser as it was. */
  lemma TokenShowsNothing(p: Parser, t: string)
    requires Idle(p) && TokenName(t)
    ensures Fed(p, Token(t)) == (p, EMPTY)
  {
    hide Fed, Token, StripControl, SafePrefix;
    assert NoControl("") && HasNoBullet("") && p.buffer + "" + "" == "";
    assert "" + Token(t) + "" == Token(t) && "" + "" == "";
    TokenMakesNoDifference(p, "", t, "");
    NoControlToStrip("");
    NoControlToHold("");
    IdleFeed(p, "", 0);
  }

  /** The first k characters of the token come behind other text, and the cut is not within the "<|",
      nor such that a "<|" ends them. */
  predicate HeldBack(a: string, t: string, k: nat) {
    a != "" && k >= 2 && !(k == |t| + 3 && t != "" && t[|t| - 1] == '<')
  }

  lemma TokenEnd(t: string, i: int)
    requires TokenName(t)
    ensures At(Token(t), "|>", i) <==> i == |t| + 2
    ensures At(Token(t), "<|", i) <==> i == 0 || (i == |t| + 1 && t[|t| - 1] == '<')
  {
    var s := Token(t);
    if 0 <= i <= |s| - 2 {
      assert s[i..i + 2] == [s[i], s[i + 1]];
      assert 2 <= i < |t| + 2 ==> s[i] == t[i - 2];
      assert 1 <= i < |t| + 1 ==> s[i + 1] == t[i - 1];
    }
  }

  lemma InToken(t: string, k: nat, m: nat, pat: string, i: int)
    requires k <= m <= |Token(t)|
    ensures At(Token(t)[k..m], pat, i) <==> 0 <= i && k + i + |pat| <= m && At(Token(t), pat, k + i)
  {
    AtSlice(Token(t), k, m, pat, i);
  }

  /** Where the first part of the token is cut off. */
  lemma SafeFront(a: string, t: string, k: nat)
    requires NoControl(a) && TokenName(t) && 0 < k < |Token(t)|
    ensures var n := SafePrefix(a + Token(t)[..k]);
            if HeldBack(a, t, k) then n == |a| else n == 0 || (n == |a| + |t| + 1 && k == |t| + 3)
  {
    var x := Token(t)[..k];
    var s := a + x;
    assert x == Token(t)[0..k];
    var i := RFind(s, "<|");
    if i != -1 {
      StartBehind(a, x, i);
      AtSuffix(a, x, "<|", i);
      InToken(t, 0, k, "<|", i - |a|);
      TokenEnd(t, i - |a|);
    }
    StartsIn(a, t, k, 0);
    if t[|t| - 1] == '<' {
      StartsIn(a, t, k, |t| + 1);
    }
    hide TokenName;
    var e := if i == -1 then -1 else Find(s, "|>", i);
    if e != -1 {
      AtSuffix(a, x, "|>", e);
      InToken(t, 0, k, "|>", e - |a|);
      TokenEnd(t, e - |a|);
    }
  }

  lemma StartBehind(a: string, x: string, i: nat)
    requires NoControl(a) && (x == "" || x[0] == '<') && At(a + x, "<|", i)
    ensures i >= |a|
  {
    var s := a + x;
    assert s[i..i + 2] == [s[i], s[i + 1]];
    assert forall j :: 0 <= j < |a| ==> s[j] == a[j];
  }

  lemma StartsIn(a: string, t: string, k: nat, i: nat)
    requires TokenName(t) && k <= |Token(t)|
    requires i == 0 || (i == |t| + 1 && t[|t| - 1] == '<')
    ensures i + 2 <= k ==> At(a + Token(t)[..k], "<|", |a| + i)
  {
    TokenEnd(t, i);
    InToken(t, 0, k, "<|", i);
    if i + 2 <= k {
      assert Token(t)[..k] == Token(t)[0..k];
      AtShift(a, Token(t)[..k], "<|", i);
    }
  }

  /** No token is complete in the part of one, whatever comes before it. */
  lemma PartStays(a: string, t: string, k: nat)
    requires NoControl(a) && TokenName(t) && k < |Token(t)|
    ensures StripControl(a + Token(t)[..k]) == a + Token(t)[..k]
  {
    hide TokenName, Token, NoControl;
    var s := a + Token(t)[..k];
    forall i | 0 <= i < |s|
      ensures ControlToken(s[i..]) == 0
    {
      if ControlToken(s[i..]) > 0 {
        TokenInPart(a, t, k, i);
      }
    }
    assert s + "" == s;
    StripsBehind(s, "");
    assert s + StripControl("") == s;
  }

  /** Where a token would be: it starts with "<|", and ends with "|>" at least three further on. */
  lemma TokenEnds(s: string, i: nat) returns (e: nat)
    requires i <= |s| && ControlToken(s[i..]) > 0
    ensures At(s, "<|", i) && e >= i + 3 && At(s, "|>", e)
  {
    var x := s[i..];
    var n := ControlToken(x);
    FoundIsToken(x);
    e := i + n - 2;
    assert s[i..i + 2] == x[..2];
    assert s[e..e + 2] == x[n - 2..n] == x[..n][n - 2..];
    assert Token(x[2..n - 2])[n - 2..] == "|>";
  }

  lemma TokenInPart(a: string, t: string, k: nat, i: nat)
    requires NoControl(a) && TokenName(t) && k < |Token(t)| && i <= |a| + k
    ensures ControlToken((a + Token(t)[..k])[i..]) == 0
  {
    var x := Token(t)[..k];
    var s := a + x;
    if ControlToken(s[i..]) > 0 {
      var e := TokenEnds(s, i);
      StartBehind(a, x, i);
      AtSuffix(a, x, "|>", e);
      assert x == Token(t)[0..k];
      InToken(t, 0, k, "|>", e - |a|);
      TokenEnd(t, e - |a|);
    }
  }

  /** What is left of a token once its first character is gone is ordinary text. */
  lemma TailStays(t: string, m: nat)
    requires TokenName(t) && 1 <= m <= |Token(t)|
    ensures StripControl(Token(t)[m..]) == Token(t)[m..]
  {
    var y := Token(t)[m..];
    hide Token, TokenName, ControlToken;
    forall i | 0 <= i < |y|
      ensures ControlToken(y[i..]) == 0
    {
      TokenInTail(t, m, i);
    }
    assert y + "" == y;
    StripsBehind(y, "");
    assert y + StripControl("") == y;
  }

  lemma TokenInTail(t: string, m: nat, i: nat)
    requires TokenName(t) && 1 <= m <= |Token(t)| && i < |Token(t)| - m
    ensures ControlToken(Token(t)[m..][i..]) == 0
  {
    var y := Token(t)[m..];
    assert y == Token(t)[m..|Token(t)|];
    hide Token, ControlToken;
    if ControlToken(y[i..]) > 0 {
      var e := TokenEnds(y, i);
      InToken(t, m, |Token(t)|, "<|", i);
      InToken(t, m, |Token(t)|, "|>", e);
      TokenEnd(t, m + i);
      TokenEnd(t, m + e);
    }
  }

  lemma TailIsSafe(t: string, m: nat)
    requires TokenName(t) && 1 <= m <= |Token(t)|
    ensures SafePrefix(Token(t)[m..]) == 0
  {
    var y := Token(t)[m..];
    assert y == Token(t)[m..|Token(t)|] && |Token(t)| == |t| + 4;
    hide Token;
    var i := RFind(y, "<|");
    if i != -1 {
      InToken(t, m, |Token(t)|, "<|", i);
      TokenEnd(t, m + i);
      InToken(t, m, |Token(t)|, "|>", i + 1);
      TokenEnd(t, m + i + 1);
    }
  }

  lemma PartsHaveNoBullet(t: string, k: nat, m: nat)
    requires HasNoBullet(t) && k <= m <= |Token(t)|
    ensures HasNoBullet(Token(t)[k..m])
  {
    forall i | 0 <= i < m - k
      ensures Token(t)[k..m][i] != BULLET
    {
      assert Token(t)[k..m][i] == Token(t)[k + i];
    }
  }

  /** How much of the first part of the token is shown. */
  function ShownOf(a: string, t: string, k: nat): nat
    requires k <= |Token(t)|
  {
    if HeldBack(a, t, k) then 0 else if SafePrefix(a + Token(t)[..k]) == 0 then k else |t| + 1
  }

  lemma ShownThere(a: string, t: string, k: nat)
    requires NoControl(a) && TokenName(t) && 0 < k < |Token(t)|
    ensures var all, m := a + Token(t)[..k], ShownOf(a, t, k);
            m <= k && (m > 0 || HeldBack(a, t, k)) && (if SafePrefix(all) > 0 then SafePrefix(all) else |all|) == |a| + m
  {
    SafeFront(a, t, k);
    assert |Token(t)[..k]| == k;
    hide Token, TokenName, NoControl, SafePrefix;
  }

  lemma FirstPart(p: Parser, a: string, t: string, k: nat)
    requires Idle(p) && NoControl(a) && HasNoBullet(a) && TokenName(t) && HasNoBullet(t) && 0 < k < |Token(t)|
    ensures p.mode == TextMode && p.buffer == ""
    ensures var m := ShownOf(a, t, k);
            && m <= k && (m > 0 || HeldBack(a, t, k))
            && Fed(p, a + Token(t)[..k]) == (p.(buffer := Token(t)[m..k]), Output(a + Token(t)[..m], []))
  {
    hide StripControl, Run, SafePrefix, TokenName, Token, HeldBack, NoControl, Fed, ShownOf, HasNoBullet;
    PartStays(a, t, k);
    ShownThere(a, t, k);
    FirstHasNoBullet(a, t, k);
    CutAt(a, Token(t), k, ShownOf(a, t, k));
    IdleFeed(p, a + Token(t)[..k], |a| + ShownOf(a, t, k));
  }

  lemma IdleFeed(p: Parser, s: string, n: nat)
    requires Idle(p) && HasNoBullet(s) && StripControl(s) == s && n == (if SafePrefix(s) > 0 then SafePrefix(s) else |s|)
    ensures p.mode == TextMode && p.buffer == "" && n <= |s| && Fed(p, s) == (p.(buffer := s[n..]), Output(s[..n], []))
  {
    hide StripControl, SafePrefix, HasNoBullet, Fed;
    assert p.buffer + s == s;
    PlainFeed(p, s);
  }

  lemma FirstHasNoBullet(a: string, t: string, k: nat)
    requires HasNoBullet(a) && HasNoBullet(t) && k <= |Token(t)|
    ensures HasNoBullet(a + Token(t)[..k])
  {
    PartsHaveNoBullet(t, 0, k);
    assert Token(t)[0..k] == Token(t)[..k];
    hide Token;
  }

  lemma CutAt(a: string, s: string, k: nat, m: nat)
    requires m <= k <= |s|
    ensures (a + s[..k])[|a| + m..] == s[m..k] && (a + s[..k])[..|a| + m] == a + s[..m]
  {
  }

  lemma CutStrings(a: string, s: string, k: nat, m: nat, b: string)
    requires m <= k <= |s|
    ensures s[m..k] + s[k..] == s[m..] && (a + s[..m]) + s[m..] == a + s && a + s[..0] == a && s[0..k] == s[..k]
    ensures s[..k] + (s[k..] + b) == "" + s + b && s[|s|..] == "" && s[m..|s|] == s[m..]
  {
  }

  /** A token cut in two, the rest of it together with what follows: if its first part was held back,
      nothing of it is ever shown and the parser goes on as if it had not been there. */
  lemma HeldTokenGoes(p: Parser, a: string, t: string, k: nat, b: string)
    requires Idle(p) && NoControl(a) && HasNoBullet(a) && TokenName(t) && HasNoBullet(t)
    requires 0 < k < |Token(t)| && HeldBack(a, t, k)
    ensures var (q, out) := Fed(p, a + Token(t)[..k]);
            out == Output(a, []) && q == p.(buffer := Token(t)[..k]) && Fed(q, Token(t)[k..] + b) == Fed(p, b)
  {
    FirstPart(p, a, t, k);
    TokenGoes("", t, b);
    hide StripControl, Run, SafePrefix, TokenName, Token;
    CutStrings(a, Token(t), k, 0, b);
    assert p.buffer + b == b && "" + StripControl(b) == StripControl(b);
  }

  /** And exactly then: otherwise all of it is shown. */
  lemma OtherTokenShows(p: Parser, a: string, t: string, k: nat)
    requires Idle(p) && NoControl(a) && HasNoBullet(a) && TokenName(t) && HasNoBullet(t)
    requires 0 < k < |Token(t)| && !HeldBack(a, t, k)
    ensures var (q, out) := Fed(p, a + Token(t)[..k]);
            var (r, more) := Fed(q, Token(t)[k..]);
            out.Then(more) == Output(a + Token(t), []) && r == p
  {
    hide StripControl, Run, SafePrefix, TokenName, Token, HeldBack, NoControl, ShownOf, HasNoBullet;
    FirstPart(p, a, t, k);
    var m := ShownOf(a, t, k);
    TailStays(t, m);
    TailIsSafe(t, m);
    PartsHaveNoBullet(t, m, |Token(t)|);
    CutStrings(a, Token(t), k, m, "");
    PlainFeed(p.(buffer := Token(t)[m..k]), Token(t)[k..]);
  }

  /** What was held back is held for one feed only: if the token is still not whole then, it is shown after all. */
  lemma SecondCutShows(p: Parser, a: string, t: string, k: nat, m: nat)
    requires Idle(p) && NoControl(a) && HasNoBullet(a) && TokenName(t) && HasNoBullet(t)
    requires 0 < k < m < |Token(t)| && HeldBack(a, t, k)
    ensures var (q, out) := Fed(p, a + Token(t)[..k]);
            var (r, more) := Fed(q, Token(t)[k..m]);
            var (s, last) := Fed(r, Token(t)[m..]);
            out.text + (more.text + last.text) == a + Token(t) && out.tools + (more.tools + last.tools) == [] && s == p
  {
    HeldTokenGoes(p, a, t, k, "");
    assert NoControl("") && HasNoBullet("") && !HeldBack("", t, m);
    hide StripControl, Run, SafePrefix, TokenName, Token, HeldBack, NoControl, HasNoBullet;
    OtherTokenShows(p, "", t, m);
    JoinedParts(Token(t), k, m);
    assert p.buffer + ("" + Token(t)[..m]) == Token(t)[..m];
  }

  lemma JoinedParts(s: string, k: nat, m: nat)
    requires k <= m <= |s|
    ensures s[..k] + s[k..m] == s[..m] && "" + s == s && "" + s[..m] == s[..m]
  {
  }

  // ---------------------------------------------------------------- inside a call

  lemma {:induction false} GapSkipped(s: string, i: nat, n: nat)
    requires i <= n < |s| && (forall k :: i <= k < n ==> IsSpace(s[k])) && !IsSpace(s[n])
    ensures SkipSpace(s, i) == n
    decreases n - i
  {
    hide IsSpace;
    if i < n {
      GapSkipped(s, i + 1, n);
    }
  }

  lemma FunctionStands(gap: string, w: string, rest: string)
    requires (forall k :: 0 <= k < |gap| ==> IsSpace(gap[k])) && w != "" && '>' !in w
    ensures var front := [BULLET] + gap;
            SearchFunction(front + (FUNCTION + w + ">" + rest), 0) == Some(Tag(0, w, |front| + |FUNCTION| + |w| + 1))
  {
    var front := [BULLET] + gap;
    var s, n := front + (FUNCTION + w + ">" + rest), 1 + |gap|;
    forall k | 1 <= k < n
      ensures IsSpace(s[k])
    {
      assert s[k] == gap[k - 1];
    }
    assert s[n] == '<' && !IsSpace('<');
    GapSkipped(s, 1, n);
    TagText(front, FUNCTION, w, rest);
    hide TagFrom, FUNCTION, IsSpace, SkipSpace;
    WholeTag(s, 0, n, FUNCTION, w);
    assert FunctionAt(s, 0) == TagFrom(s, 0, n, FUNCTION);
  }

  /** A whole function tag behind the bullet opens a call: its name is stripped, and it has no parameters yet. */
  lemma TagOpensCall(p: Parser, gap: string, w: string, rest: string)
    requires (forall k :: 0 <= k < |gap| ==> IsSpace(gap[k])) && w != "" && '>' !in w
    requires p.mode == Matching && p.buffer == [BULLET] + gap + (FUNCTION + w + ">" + rest)
    ensures Run(p) == Run(Parser(Parsing, rest, Strip(w), map[]))
  {
    FunctionStands(gap, w, rest);
    RestOf([BULLET] + gap + (FUNCTION + w + ">"), rest);
    assert p.buffer == ([BULLET] + gap + (FUNCTION + w + ">")) + rest;
    hide SearchFunction, ParamStep, TextStep, FUNCTION, IsSpace, Strip;
    var q := Parser(Parsing, rest, Strip(w), map[]);
    assert StepOnce(p) == Go(q, EMPTY);
    ThenEmpty(Run(q).1);
  }

  lemma NothingOpensBefore(front: string, s: string)
    requires '<' !in front
    ensures forall k :: 0 <= k < |front| ==> TagFrom(front + s, k, k, PARAMETER).None?
  {
    forall k | 0 <= k < |front|
      ensures !At(front + s, PARAMETER, k)
    {
      assert (front + s)[k] == front[k];
      if At(front + s, PARAMETER, k) {
        StartsAlike(front + s, PARAMETER, k);
      }
    }
  }

  lemma StartsAlike(s: string, pat: string, i: nat)
    requires At(s, pat, i) && pat != ""
    ensures i < |s| && s[i] == pat[0]
  {
    assert s[i..i + |pat|][0] == s[i];
  }

  lemma FirstTag(s: string, n: nat)
    requires n <= |s| && TagFrom(s, n, n, PARAMETER).Some? && forall k :: 0 <= k < n ==> TagFrom(s, k, k, PARAMETER).None?
    ensures SearchParameter(s, 0) == TagFrom(s, n, n, PARAMETER)
  {
    hide TagFrom;
  }

  /** The parameter tag found behind text without one. */
  lemma TagBehind(front: string, k: string, rest: string)
    requires '<' !in front && k != "" && '>' !in k
    ensures SearchParameter(front + (PARAMETER + k + ">" + rest), 0) == Some(Tag(|front|, k, |front| + |PARAMETER| + |k| + 1))
  {
    hide TagFrom, SearchParameter, PARAMETER;
    TagStands(front, PARAMETER, k, rest);
    TagBehindText(front, PARAMETER + k + ">" + rest);
  }

  lemma TagBehindText(front: string, s: string)
    requires '<' !in front && TagFrom(front + s, |front|, |front|, PARAMETER).Some?
    ensures SearchParameter(front + s, 0) == TagFrom(front + s, |front|, |front|, PARAMETER)
  {
    hide TagFrom, SearchParameter;
    NothingOpensBefore(front, s);
    FirstTag(front + s, |front|);
  }

  lemma TagStands(front: string, opener: string, k: string, rest: string)
    requires k != "" && '>' !in k
    ensures TagFrom(front + (opener + k + ">" + rest), |front|, |front|, opener) == Some(Tag(|front|, k, |front| + |opener| + |k| + 1))
  {
    hide TagFrom;
    TagText(front, opener, k, rest);
    WholeTag(front + (opener + k + ">" + rest), |front|, |front|, opener, k);
  }

  lemma TagText(front: string, opener: string, k: string, rest: string)
    ensures var s, n := front + (opener + k + ">" + rest), |front| + |opener|;
            n + |k| < |s| && s[|front|..n] == opener && s[n..n + |k|] == k && s[n + |k|] == '>'
  {
    var tail := opener + k + ">" + rest;
    var s, n := front + tail, |front| + |opener|;
    assert tail == opener + (k + (">" + rest));
    assert s[|front|..n] == tail[..|opener|] == opener;
    assert s[n..n + |k|] == tail[|opener|..|opener| + |k|] == k;
    assert s[n + |k|] == tail[|opener| + |k|] == '>';
  }

  /** A parameter never closed: when the stream ends its value is all that is left. */
  lemma UnclosedIsTaken(p: Parser, front: string, k: string, v: string)
    requires p.mode == Parsing && p.buffer == front + (PARAMETER + k + ">" + v) && NoControl(p.buffer)
    requires '<' !in front && k != "" && '>' !in k
    ensures var params := p.params[Strip(k) := Strip(v)];
            Flushed(p) == (Parser(TextMode, "", p.name, params), [ToolUse(p.name, params)])
  {
    hide StripControl, SearchParameter, Strip, PARAMETER, NoControl;
    NoControlToStrip(p.buffer);
    TagBehind(front, k, v);
    RestOf(front + (PARAMETER + k + ">"), v);
    assert p.buffer == (front + (PARAMETER + k + ">")) + v;
  }

  lemma RestOf(a: string, b: string)
    ensures (a + b)[|a|..] == b && (a + b)[..|a|] == a
  {
  }

  /** With no opening tag left, the call goes out as it is; outside a call nothing does. */
  lemma NothingUnclosed(p: Parser)
    ensures p.mode != Parsing ==> Flushed(p).1 == []
    ensures p.mode == Parsing && NoControl(p.buffer) && (forall i :: !At(p.buffer, PARAMETER, i)) ==>
              Flushed(p).1 == [ToolUse(p.name, p.params)] && Flushed(p).0 == Parser(TextMode, "", p.name, p.params)
  {
    if NoControl(p.buffer) {
      NoControlToStrip(p.buffer);
    }
    hide StripControl;
  }

  lemma ParameterBehind(front: string, k: string, v: string, rest: string)
    requires '<' !in front && k != "" && '>' !in k && Value(v)
    ensures ClosedParam(front + (Parameter(k, v) + rest)) == Some(ParamMatch(|front|, k, v, |front| + |Parameter(k, v)|))
  {
    hide Value, Find, Contains, SearchParameter, PARAMETER, END_PARAMETER, At, Parameter;
    var s, tag := front + (Parameter(k, v) + rest), front + (PARAMETER + k + ">");
    ParameterShape(k, v, rest);
    assert s == front + (PARAMETER + k + ">" + (v + END_PARAMETER + rest));
    TagBehind(front, k, v + END_PARAMETER + rest);
    assert s == tag + (v + END_PARAMETER + rest);
    FirstEnd(tag, v, rest);
    Middle(tag, v, END_PARAMETER + rest);
    assert v + (END_PARAMETER + rest) == v + END_PARAMETER + rest;
    assert ParamPattern(s) == Some(ParamMatch(|front|, k, v, |front| + |Parameter(k, v)|));
    Middle(front, Parameter(k, v), rest);
    ParameterEnds(k, v);
    ContainsAt(Parameter(k, v), END_PARAMETER, |Parameter(k, v)| - 12);
  }

  /** Text in front of a parameter is shown, the parameter is taken, and reading goes on behind it. */
  lemma TextThenParameter(p: Parser, front: string, k: string, v: string, rest: string)
    requires '<' !in front && k != "" && '>' !in k && Value(v)
    requires p.buffer == front + (Parameter(k, v) + rest)
    ensures var (q, text) := ExtractParams(p.(buffer := rest, params := p.params[Strip(k) := Strip(v)]));
            ExtractParams(p) == (q, front + text)
  {
    hide Value, ClosedParam, Strip, Parameter;
    ParameterBehind(front, k, v, rest);
    RestOf(front, Parameter(k, v) + rest);
    RestOf(front + Parameter(k, v), rest);
    assert p.buffer == (front + Parameter(k, v)) + rest;
  }

  /** Text behind a call ends it and is shown. */
  lemma TextEndsCall(p: Parser, x: string)
    requires p.mode == Parsing && p.buffer == "" && x != "" && HasNoBullet(x) && '<' !in x
    ensures Fed(p, x) == (p.(mode := TextMode), Output(x, [ToolUse(p.name, p.params)]))
  {
    hide StripControl, ClosedParam, SearchParameter, Contains, Find, SafePrefix, Strip;
    var q := p.(buffer := x);
    assert p.buffer + x == x;
    assert NoControl(x) && NoControl("");
    NoControlToStrip(x);
    NoTagsWithout(x);
    StrippedHasNo(x);
    BeginsWithBracket(Strip(x));
    BulletFree(x);
    assert ParamStep(q) == Go(p.(mode := TextMode), Output("" + x, [ToolUse(p.name, p.params)]));
    BulletFree("");
    NoControlToHold("");
    assert TextStep(p.(mode := TextMode)) == Stop(p.(mode := TextMode), EMPTY);
    assert StepOnce(q) == ParamStep(q) && StepOnce(p.(mode := TextMode)) == TextStep(p.(mode := TextMode));
    assert "" + x == x;
    ThenEmpty(Output(x, [ToolUse(p.name, p.params)]));
    hide StepOnce, ParamStep, TextStep;
    assert Run(p.(mode := TextMode)) == (p.(mode := TextMode), EMPTY);
    assert Run(q) == (p.(mode := TextMode), Output(x, [ToolUse(p.name, p.params)]));
  }

  lemma BeginsWithBracket(s: string)
    ensures "<" <= s ==> '<' in s
  {
    if "<" <= s {
      assert s[0] == '<';
    }
  }

  lemma NoTagsWithout(x: string)
    requires '<' !in x
    ensures ClosedParam(x).None? && !Contains(x, PARAMETER)
  {
    NothingOpensBefore(x, "");
    assert x + "" == x;
    var i := Find(x, PARAMETER, 0);
    if i != -1 {
      StartsAlike(x, PARAMETER, i);
    }
    var r := SearchParameter(x, 0);
    assert r.Some? ==> TagFrom(x, r.value.start, r.value.start, PARAMETER).Some?;
  }

  lemma {:induction false} StrippedHasNo(x: string)
    requires '<' !in x
    ensures '<' !in Strip(x)
    decreases |x|
  {
    if x != "" && IsSpace(x[0]) {
      StrippedHasNo(x[1..]);
    } else if x != "" && IsSpace(x[|x| - 1]) {
      StrippedHasNo(x[..|x| - 1]);
    }
  }

  /** A bullet ends a call too: the text before it is shown, and the parser goes on at the bullet. */
  lemma BulletEndsCall(p: Parser, x: string, y: string)
    requires p.mode == Parsing && p.buffer == "" && HasNoBullet(x)
    requires NoControl(x + ([BULLET] + y)) && ClosedParam(x + ([BULLET] + y)).None?
    ensures var (q, out) := Run(p.(mode := TextMode, buffer := [BULLET] + y));
            Fed(p, x + ([BULLET] + y)) == (q, Output(x, [ToolUse(p.name, p.params)]).Then(out))
  {
    hide StripControl, ClosedParam, Contains, Find, Strip;
    var whole := x + ([BULLET] + y);
    var q := p.(buffer := whole);
    assert p.buffer + whole == whole;
    NoControlToStrip(whole);
    FirstBullet(x, [BULLET] + y);
    RestOf(x, [BULLET] + y);
    assert "" + x == x;
    assert ParamStep(q) == Go(p.(mode := TextMode, buffer := [BULLET] + y), Output(x, [ToolUse(p.name, p.params)]));
    assert StepOnce(q) == ParamStep(q);
    hide StepOnce, ParamStep;
  }
}
