/** String searching as the Python `str` methods do it. */
module Strings {

  /** The pattern occurs in s at position i. */
  predicate At(s: string, pat: string, i: int) {
    0 <= i && i + |pat| <= |s| && s[i..i + |pat|] == pat
  }

  /** Leftmost occurrence at or after `from`, or -1: `s.find(pat, from)`. */
  function Find(s: string, pat: string, from: nat): (r: int)
    ensures r == -1 ==> forall i :: from <= i ==> !At(s, pat, i)
    ensures r != -1 ==> from <= r && At(s, pat, r) && forall i :: from <= i < r ==> !At(s, pat, i)
    decreases |s| - from
  {
    if from + |pat| > |s| then -1
    else if At(s, pat, from) then from
    else if from < |s| then Find(s, pat, from + 1)
    else -1
  }

  lemma FindIs(s: string, pat: string, from: nat, g: nat)
    requires from <= g && At(s, pat, g) && forall k :: from <= k < g ==> !At(s, pat, k)
    ensures Find(s, pat, from) == g
  {
    var r := Find(s, pat, from);
    assert from <= r && At(s, pat, r);
  }

  predicate Contains(s: string, pat: string) {
    Find(s, pat, 0) != -1
  }

  /** Rightmost occurrence, or -1: `s.rfind(pat)`. */
  function RFind(s: string, pat: string): (r: int)
    ensures r == -1 ==> forall i :: 0 <= i ==> !At(s, pat, i)
    ensures r != -1 ==> 0 <= r && At(s, pat, r) && forall i :: r < i ==> !At(s, pat, i)
  {
    RFindBelow(s, pat, |s|)
  }

  function RFindBelow(s: string, pat: string, hi: nat): (r: int)
    requires forall i :: hi < i ==> !At(s, pat, i)
    ensures r == -1 ==> forall i :: 0 <= i ==> !At(s, pat, i)
    ensures r != -1 ==> 0 <= r && At(s, pat, r) && forall i :: r < i ==> !At(s, pat, i)
  {
    if At(s, pat, hi) then hi
    else if hi == 0 then -1
    else RFindBelow(s, pat, hi - 1)
  }

  /** `"".join(parts)`. Peels the last part, so appending a part is one unfolding. */
  function Join(parts: seq<string>): string {
    if parts == [] then "" else Join(parts[..|parts| - 1]) + parts[|parts| - 1]
  }

  lemma JoinAppend(parts: seq<string>, part: string)
    ensures Join(parts + [part]) == Join(parts) + part
  {
    assert (parts + [part])[..|parts|] == parts;
  }

  lemma {:induction false} JoinConcat(a: seq<string>, b: seq<string>)
    ensures Join(a + b) == Join(a) + Join(b)
  {
    if b == [] {
      assert a + b == a;
    } else {
      var init := b[..|b| - 1];
      JoinConcat(a, init);
      assert (a + b)[..|a + b| - 1] == a + init;
    }
  }

  /** An occurrence inside a prefix or suffix is an occurrence in the whole. */
  lemma AtShift(a: string, b: string, pat: string, i: int)
    requires At(b, pat, i)
    ensures At(a + b, pat, |a| + i)
  {
    assert (a + b)[|a| + i..|a| + i + |pat|] == b[i..i + |pat|];
  }

  lemma AtPrefix(a: string, b: string, pat: string, i: int)
    requires 0 <= i && i + |pat| <= |a|
    ensures At(a + b, pat, i) == At(a, pat, i)
  {
    assert (a + b)[i..i + |pat|] == a[i..i + |pat|];
  }

  lemma AtSuffix(a: string, b: string, pat: string, i: int)
    requires |a| <= i
    ensures At(a + b, pat, i) == At(b, pat, i - |a|)
  {
    if i + |pat| <= |a + b| {
      assert (a + b)[i..i + |pat|] == b[i - |a|..i - |a| + |pat|];
    }
  }

  lemma AtSlice(s: string, from: nat, to: nat, pat: string, k: int)
    requires from <= to <= |s|
    ensures At(s[from..to], pat, k) <==> 0 <= k && from + k + |pat| <= to && At(s, pat, from + k)
  {
    if 0 <= k && from + k + |pat| <= to {
      var x, y := s[from..to][k..k + |pat|], s[from + k..from + k + |pat|];
      assert forall j :: 0 <= j < |x| ==> x[j] == y[j];
      assert x == y;
    }
  }

  /** `str.isspace` for one character. */
  predicate IsSpace(c: char) {
    || '\U{9}' <= c <= '\U{D}' || '\U{1C}' <= c <= '\U{20}' || c == '\U{85}' || c == '\U{A0}'
    || c == '\U{1680}' || '\U{2000}' <= c <= '\U{200A}' || c == '\U{2028}' || c == '\U{2029}'
    || c == '\U{202F}' || c == '\U{205F}' || c == '\U{3000}'
  }

  /** `s.strip()` */
  function Strip(s: string): string {
    if s != "" && IsSpace(s[0]) then Strip(s[1..])
    else if s != "" && IsSpace(s[|s| - 1]) then Strip(s[..|s| - 1])
    else s
  }

  /** White space around a word is stripped, the word itself is not. */
  lemma {:induction false} StripIs(front: string, word: string, back: string)
    requires (forall i :: 0 <= i < |front| ==> IsSpace(front[i])) && (forall i :: 0 <= i < |back| ==> IsSpace(back[i]))
    requires word == "" || (!IsSpace(word[0]) && !IsSpace(word[|word| - 1]))
    ensures Strip(front + word + back) == word
    decreases |front| + |back|
  {
    hide IsSpace;
    var s := front + word + back;
    if front != "" {
      assert s[1..] == front[1..] + word + back;
      StripIs(front[1..], word, back);
    } else if back != "" {
      assert s[..|s| - 1] == front + word + back[..|back| - 1];
      StripIs(front, word, back[..|back| - 1]);
      BackOnly(s, word, back);
    } else {
      assert s == word;
    }
  }

  lemma BackOnly(s: string, word: string, back: string)
    requires s == "" + word + back && back != "" && (forall i :: 0 <= i < |back| ==> IsSpace(back[i]))
    requires Strip(s[..|s| - 1]) == word && (word == "" || !IsSpace(word[0]))
    ensures Strip(s) == word
  {
    hide IsSpace;
    assert s[|s| - 1] == back[|back| - 1];
    if word != "" {
      assert s[0] == word[0];
    } else {
      assert s == back;
      AllSpace(back);
    }
  }

  lemma {:induction false} AllSpace(s: string)
    requires forall i :: 0 <= i < |s| ==> IsSpace(s[i])
    ensures Strip(s) == ""
  {
    hide IsSpace;
    if s != "" {
      AllSpace(s[1..]);
    }
  }
}
