/** What the deltas of a stream say about each call, read off the deltas themselves: which call a delta
    belongs to, which arguments and which names it brings. `LogAll` adds up to exactly this. */
module CallLogs {
  import opened Strings
  import opened Wrappers
  import opened ToolCalls

  /** The delta makes its call known. */
  predicate Says(tc: ToolDelta) {
    tc.ToolDelta? && (tc.name.Some? || tc.id != "" || tc.args != "")
  }

  /** The call a delta belongs to: the one it names, or a new one, numbered by the calls known before. */
  function Number(known: set<int>, tc: ToolDelta): int
    requires tc.ToolDelta?
  {
    if tc.index < 0 then |known| else tc.index
  }

  function Calls(deltas: seq<ToolDelta>): set<int> {
    if deltas == [] then {}
    else
      var known, last := Calls(deltas[..|deltas| - 1]), deltas[|deltas| - 1];
      if Says(last) then known + {Number(known, last)} else known
  }

  /** Delta j can be read and belongs to call k. */
  predicate Belongs(deltas: seq<ToolDelta>, j: nat, k: int)
    requires j < |deltas|
  {
    deltas[j].ToolDelta? && Number(Calls(deltas[..j]), deltas[j]) == k
  }

  /** The arguments that the deltas of call k bring, in order. */
  function ArgsFor(deltas: seq<ToolDelta>, k: int): seq<string> {
    if deltas == [] then []
    else
      var m := |deltas| - 1;
      ArgsFor(deltas[..m], k) + (if Belongs(deltas, m, k) && deltas[m].args != "" then [deltas[m].args] else [])
  }

  /** The name that a delta brings for call k, if any. A call that becomes known by its arguments alone
      is named "tool_call". */
  function NameGiven(known: set<int>, tc: ToolDelta, k: int): seq<string> {
    if tc.Malformed? || Number(known, tc) != k then []
    else if tc.name.Some? then [tc.name.value]
    else if k !in known && tc.id == "" && tc.args != "" then ["tool_call"]
    else []
  }

  /** The names that the deltas of call k bring, in order. */
  function NamesFor(deltas: seq<ToolDelta>, k: int): seq<string> {
    if deltas == [] then []
    else
      var m := |deltas| - 1;
      NamesFor(deltas[..m], k) + NameGiven(Calls(deltas[..m]), deltas[m], k)
  }

  lemma CallsAppend(deltas: seq<ToolDelta>, tc: ToolDelta, k: int)
    ensures Calls(deltas + [tc]) == if Says(tc) then Calls(deltas) + {Number(Calls(deltas), tc)} else Calls(deltas)
    ensures Belongs(deltas + [tc], |deltas|, k) <==> tc.ToolDelta? && Number(Calls(deltas), tc) == k
    ensures ArgsFor(deltas + [tc], k) == ArgsFor(deltas, k) + (if Belongs(deltas + [tc], |deltas|, k) && tc.args != "" then [tc.args] else [])
    ensures NamesFor(deltas + [tc], k) == NamesFor(deltas, k) + NameGiven(Calls(deltas), tc, k)
  {
    assert (deltas + [tc])[..|deltas|] == deltas;
  }

  /** Without negative indices the arguments of call k are those of the deltas with index k. */
  lemma {:induction false} ArgsByIndex(deltas: seq<ToolDelta>, k: int)
    requires forall tc :: tc in deltas && tc.ToolDelta? ==> tc.index >= 0
    ensures ArgsFor(deltas, k) == ArgsWithIndex(deltas, k)
  {
    if deltas != [] {
      assert deltas[|deltas| - 1] in deltas;
      ArgsByIndex(deltas[..|deltas| - 1], k);
    }
  }

  function ArgsWithIndex(deltas: seq<ToolDelta>, k: int): seq<string> {
    if deltas == [] then []
    else
      var last := deltas[|deltas| - 1];
      ArgsWithIndex(deltas[..|deltas| - 1], k) + (if last.ToolDelta? && last.index == k && last.args != "" then [last.args] else [])
  }

  // ---------------------------------------------------------------- the log

  function Args(frags: seq<Frag>): seq<string> {
    seq(|frags|, i requires 0 <= i < |frags| => frags[i].args)
  }

  /** The log knows the calls the deltas speak of, and has for each the arguments brought for it. */
  lemma {:induction false} LogHolds(deltas: seq<ToolDelta>, k: int)
    ensures LogAll(deltas).Keys == Calls(deltas)
    ensures k in Calls(deltas) ==> Args(LogAll(deltas)[k].frags) == ArgsFor(deltas, k)
    ensures k !in Calls(deltas) ==> ArgsFor(deltas, k) == [] && NamesFor(deltas, k) == []
  {
    if deltas != [] {
      var init, last := deltas[..|deltas| - 1], deltas[|deltas| - 1];
      LogHolds(init, k);
      CallsAppend(init, last, k);
      assert init + [last] == deltas;
      StepHolds(LogAll(init), last, k);
    }
  }

  lemma StepHolds(log: ToolLog, tc: ToolDelta, k: int)
    ensures LogStep(log, tc).Keys == if Says(tc) then log.Keys + {Number(log.Keys, tc)} else log.Keys
    ensures k in LogStep(log, tc) ==>
              Args(LogStep(log, tc)[k].frags) ==
              (if k in log then Args(log[k].frags) else []) +
              (if tc.ToolDelta? && Number(log.Keys, tc) == k && tc.args != "" then [tc.args] else [])
  {
    assert |log.Keys| == |log|;
  }

  // ---------------------------------------------------------------- names

  /** Every name is a beginning of `whole`. */
  ghost predicate Within(names: seq<string>, whole: string) {
    forall n :: n in names ==> n <= whole
  }

  lemma NameStep(log: ToolLog, tc: ToolDelta, k: int)
    ensures var given, before := NameGiven(log.Keys, tc, k), if k in log then log[k].name else "";
            if given != [] then k in LogStep(log, tc) && LogStep(log, tc)[k].name == MergeName(before, given[0])
            else k in LogStep(log, tc) ==> LogStep(log, tc)[k].name == before
  {
    assert |log.Keys| == |log|;
  }

  lemma MergeWithin(before: string, name: string, whole: string)
    requires before <= whole && name <= whole
    ensures MergeName(before, name) <= whole
    ensures before == whole || name == whole ==> MergeName(before, name) == whole
  {
  }

  /** Beginnings of `whole` add up to a beginning of it, and to all of it once it has been given: a name
      may be resent, in part or in full, or extended from delta to delta. */
  lemma {:induction false} NameSettles(deltas: seq<ToolDelta>, k: int, whole: string)
    requires Within(NamesFor(deltas, k), whole)
    ensures k in LogAll(deltas) ==> LogAll(deltas)[k].name <= whole
    ensures whole in NamesFor(deltas, k) ==> k in LogAll(deltas) && LogAll(deltas)[k].name == whole
  {
    hide LogStep, MergeName, NameGiven;
    if deltas != [] {
      var init, last := deltas[..|deltas| - 1], deltas[|deltas| - 1];
      var given := NameGiven(Calls(init), last, k);
      assert NamesFor(deltas, k) == NamesFor(init, k) + given;
      assert forall n :: n in NamesFor(init, k) ==> n in NamesFor(deltas, k);
      NameSettles(init, k, whole);
      LogHolds(init, k);
      StepHolds(LogAll(init), last, k);
      NameStep(LogAll(init), last, k);
      OneName(Calls(init), last, k);
      if given != [] {
        assert given[0] in NamesFor(deltas, k);
        MergeWithin(if k in LogAll(init) then LogAll(init)[k].name else "", given[0], whole);
      }
    }
  }

  lemma OneName(known: set<int>, tc: ToolDelta, k: int)
    ensures |NameGiven(known, tc, k)| <= 1
  {
  }

  /** No piece is a beginning of what the pieces before it make, nor the other way round. */
  ghost predicate Pieces(names: seq<string>) {
    forall i :: 0 < i < |names| ==> Apart(Join(names[..i]), names[i])
  }

  ghost predicate Apart(before: string, name: string) {
    !(before <= name) && !(name <= before)
  }

  /** A name that comes in such pieces is put together from them. */
  lemma {:induction false} NameOfPieces(deltas: seq<ToolDelta>, k: int)
    requires Pieces(NamesFor(deltas, k))
    ensures k in LogAll(deltas) ==> LogAll(deltas)[k].name == Join(NamesFor(deltas, k))
  {
    hide LogStep, NameGiven, Apart, Join;
    JoinNone();
    if deltas != [] {
      var init, last := deltas[..|deltas| - 1], deltas[|deltas| - 1];
      var names, given := NamesFor(init, k), NameGiven(Calls(init), last, k);
      assert NamesFor(deltas, k) == names + given;
      PiecesBefore(names, given);
      OneName(Calls(init), last, k);
      NameOfPieces(init, k);
      LogHolds(init, k);
      NameStep(LogAll(init), last, k);
      if given == [] {
        assert names + given == names;
      } else {
        assert given == [given[0]];
        JoinAppend(names, given[0]);
        PieceAdded(names, given[0]);
      }
    }
  }

  lemma JoinNone()
    ensures Join([]) == ""
  {
  }

  lemma PiecesBefore(names: seq<string>, more: seq<string>)
    requires Pieces(names + more)
    ensures Pieces(names)
  {
    hide Apart, Join;
    forall i | 0 < i < |names|
      ensures Apart(Join(names[..i]), names[i])
    {
      assert (names + more)[..i] == names[..i];
      assert (names + more)[i] == names[i];
    }
  }

  lemma PieceAdded(names: seq<string>, name: string)
    requires Pieces(names + [name])
    ensures MergeName(Join(names), name) == Join(names) + name
  {
    var all := names + [name];
    assert all[..|names|] == names && all[|names|] == name;
    if names != [] {
      assert Apart(Join(all[..|names|]), all[|names|]);
    } else {
      assert Join(names) == "" && "" + name == name;
    }
  }

  // ---------------------------------------------------------------- what is sent for a call

  lemma StepFrags(log: ToolLog, tc: ToolDelta, k: int)
    ensures k in LogStep(log, tc) ==>
              LogStep(log, tc)[k].frags ==
              (if k in log then log[k].frags else []) +
              (if tc.ToolDelta? && Number(log.Keys, tc) == k && tc.args != "" then [Frag(LogStep(log, tc)[k].name, tc.args)] else [])
  {
    assert |log.Keys| == |log|;
  }

  /** By the time call k gets arguments, its whole name has been given. */
  ghost predicate NamedInTime(deltas: seq<ToolDelta>, k: int, whole: string) {
    forall j :: 0 <= j < |deltas| && Belongs(deltas, j, k) && deltas[j].args != "" ==> whole in NamesFor(deltas[..j + 1], k)
  }

  lemma InTimeBefore(deltas: seq<ToolDelta>, tc: ToolDelta, k: int, whole: string)
    requires NamedInTime(deltas + [tc], k, whole)
    ensures NamedInTime(deltas, k, whole)
    ensures Belongs(deltas + [tc], |deltas|, k) && tc.args != "" ==> whole in NamesFor(deltas + [tc], k)
  {
    hide NamesFor, Calls;
    var all := deltas + [tc];
    forall j | 0 <= j < |deltas| && Belongs(deltas, j, k) && deltas[j].args != ""
      ensures whole in NamesFor(deltas[..j + 1], k)
    {
      assert all[..j] == deltas[..j] && all[j] == deltas[j] && all[..j + 1] == deltas[..j + 1];
      assert Belongs(all, j, k);
    }
    assert all[..|deltas| + 1] == all;
  }

  /** The names under which the fragments of a call arrive are beginnings of its whole name, or the whole
      name if it has been given in time. */
  lemma {:induction false} FragNames(deltas: seq<ToolDelta>, k: int, whole: string)
    requires Within(NamesFor(deltas, k), whole) && k in LogAll(deltas)
    ensures forall f :: f in LogAll(deltas)[k].frags ==> f.name <= whole
    ensures NamedInTime(deltas, k, whole) ==> forall f :: f in LogAll(deltas)[k].frags ==> f.name == whole
  {
    hide LogStep, NameGiven, NamedInTime;
    if deltas != [] {
      var init, last := deltas[..|deltas| - 1], deltas[|deltas| - 1];
      assert init + [last] == deltas;
      assert forall n :: n in NamesFor(init, k) ==> n in NamesFor(deltas, k);
      LogHolds(init, k);
      if k in LogAll(init) {
        FragNames(init, k, whole);
      }
      StepFrags(LogAll(init), last, k);
      NameSettles(deltas, k, whole);
      if NamedInTime(deltas, k, whole) {
        InTimeBefore(init, last, k, whole);
      }
    }
  }

  lemma {:induction false} ArgsUniform(frags: seq<Frag>, task: bool)
    requires forall f :: f in frags ==> (f.name == TASK) == task
    ensures ArgsOf(frags, task) == Args(frags) && ArgsOf(frags, !task) == []
  {
    if frags != [] {
      assert frags[|frags| - 1] in frags;
      ArgsUniform(frags[..|frags| - 1], task);
    }
  }

  /** What the client gets for a call whose names are beginnings of `whole`: the arguments its deltas
      brought, one by one and in order, or for a Task one payload made of all of them. */
  ghost predicate ArgsSent(codec: Codec, deltas: seq<ToolDelta>, k: int, whole: string, sent: seq<string>) {
    && (!(TASK <= whole) || (whole != TASK && NamedInTime(deltas, k, whole)) ==> sent == ArgsFor(deltas, k))
    && (whole == TASK && NamedInTime(deltas, k, whole) ==>
          if ArgsFor(deltas, k) == [] then sent == [] else |sent| == 1 && PayloadFor(codec, ArgsFor(deltas, k), sent[0]))
  }

  lemma DeliveredByName(codec: Codec, deltas: seq<ToolDelta>, k: int, whole: string, sent: seq<string>)
    requires k in LogAll(deltas) && Delivered(codec, LogAll(deltas)[k].frags, sent)
    requires Within(NamesFor(deltas, k), whole)
    ensures ArgsSent(codec, deltas, k, whole, sent)
  {
    hide TaskPayload, PayloadFor, NamedInTime, NamesFor, LogAll;
    LogHolds(deltas, k);
    FragNames(deltas, k, whole);
    var frags := LogAll(deltas)[k].frags;
    if whole == TASK && NamedInTime(deltas, k, whole) {
      ArgsUniform(frags, true);
      if frags != [] {
        DeliveredToTask(codec, frags, sent);
      }
    } else if !(TASK <= whole) || NamedInTime(deltas, k, whole) {
      ArgsUniform(frags, false);
    }
  }

  /** A readable delta raises an exception only if it completes the held arguments of a Task to JSON that
      is no object, nothing before having been JSON. */
  lemma RaisesByName(codec: Codec, deltas: seq<ToolDelta>, tc: ToolDelta, k: int, whole: string)
    requires tc.ToolDelta? && k == Number(Calls(deltas), tc)
    requires Within(NamesFor(deltas + [tc], k), whole)
    ensures tc.args == "" || !(TASK <= whole) ==> !Raises(codec, LogAll(deltas), tc)
    ensures tc.args != "" && whole == TASK && NamedInTime(deltas + [tc], k, whole) ==>
              (Raises(codec, LogAll(deltas), tc) <==>
               && FirstJson(codec, ArgsFor(deltas, k)).None?
               && codec.loads(Join(ArgsFor(deltas + [tc], k))).Some?
               && !codec.loads(Join(ArgsFor(deltas + [tc], k))).value.Dict?)
  {
    hide NamedInTime, NamesFor, LogAll, LogStep, FirstJson, NameAfter, TaskBreaks, Join;
    var all, log := deltas + [tc], LogAll(deltas);
    LogHolds(deltas, k);
    LogAppend(deltas, tc);
    NameSettles(all, k, whole);
    assert |log.Keys| == |log|;
    if tc.args != "" {
      NameIsAfter(log, tc);
      if whole == TASK && NamedInTime(all, k, whole) {
        InTimeBefore(deltas, tc, k, whole);
        HeldBefore(deltas, tc, k, whole);
        BreaksIff(codec, deltas, tc, k, if k in log then log[k].frags else []);
      }
    }
  }

  lemma HeldBefore(deltas: seq<ToolDelta>, tc: ToolDelta, k: int, whole: string)
    requires Within(NamesFor(deltas + [tc], k), whole) && whole == TASK && NamedInTime(deltas, k, whole)
    ensures ArgsOf(if k in LogAll(deltas) then LogAll(deltas)[k].frags else [], true) == ArgsFor(deltas, k)
  {
    hide NamedInTime, NamesFor, LogAll, NameGiven;
    CallsAppend(deltas, tc, k);
    assert forall n :: n in NamesFor(deltas, k) ==> n in NamesFor(deltas + [tc], k);
    LogHolds(deltas, k);
    if k in LogAll(deltas) {
      FragNames(deltas, k, whole);
      ArgsUniform(LogAll(deltas)[k].frags, true);
    }
  }

  lemma BreaksIff(codec: Codec, deltas: seq<ToolDelta>, tc: ToolDelta, k: int, frags: seq<Frag>)
    requires tc.ToolDelta? && k == Number(Calls(deltas), tc) && tc.args != "" && ArgsOf(frags, true) == ArgsFor(deltas, k)
    ensures TaskBreaks(codec, frags, tc.args) <==>
            && FirstJson(codec, ArgsFor(deltas, k)).None?
            && codec.loads(Join(ArgsFor(deltas + [tc], k))).Some?
            && !codec.loads(Join(ArgsFor(deltas + [tc], k))).value.Dict?
  {
    hide FirstJson, Join, Calls;
    CallsAppend(deltas, tc, k);
    JoinAppend(ArgsFor(deltas, k), tc.args);
  }

  lemma NameIsAfter(log: ToolLog, tc: ToolDelta)
    requires tc.ToolDelta? && tc.args != ""
    ensures Key(log, tc) in LogStep(log, tc) && LogStep(log, tc)[Key(log, tc)].name == NameAfter(log, tc)
  {
  }

  // ---------------------------------------------------------------- announcing

  /** Delta j gives call k a reason to be announced: a name, an id, or arguments. */
  predicate Announces(deltas: seq<ToolDelta>, j: nat, k: int)
    requires j < |deltas|
  {
    Belongs(deltas, j, k) && (deltas[j].id != "" || deltas[j].args != "" || deltas[j].name !in {None, Some("")})
  }

  /** A call is announced exactly if one of its deltas gives a reason. */
  lemma {:induction false} AnnouncedIff(deltas: seq<ToolDelta>, k: int)
    ensures k in ShownNames(deltas) <==> exists j :: 0 <= j < |deltas| && Announces(deltas, j, k)
    ensures k !in ShownNames(deltas) && k in LogAll(deltas) ==> LogAll(deltas)[k].name == ""
  {
    hide LogAll, ShownNames, LogStep, MergeName, ShownStep, Belongs;
    if deltas != [] {
      var m := |deltas| - 1;
      var init, last := deltas[..m], deltas[m];
      assert init + [last] == deltas;
      AnnouncedIff(init, k);
      LogHolds(init, k);
      LogAppend(init, last);
      ShownAppend(init, last);
      ShownOnce(ShownNames(init), LogAll(init), last, k);
      SameReasons(init, last, k);
      CallsAppend(init, last, k);
    } else {
      Nobody();
    }
  }

  lemma Nobody()
    ensures ShownNames([]) == map[] && LogAll([]) == map[]
  {
  }

  lemma ShownOnce(shown: map<int, string>, log: ToolLog, tc: ToolDelta, k: int)
    requires k !in shown && k in log ==> log[k].name == ""
    ensures var shown', log' := ShownStep(shown, log, tc), LogStep(log, tc);
            && (k in shown ==> k in shown' && shown'[k] == shown[k])
            && (k !in shown' && k in log' ==> log'[k].name == "")
            && (k in shown' <==> k in shown || (tc.ToolDelta? && Number(log.Keys, tc) == k &&
                                               (tc.id != "" || tc.args != "" || tc.name !in {None, Some("")})))
  {
    assert |log.Keys| == |log|;
  }

  lemma SameReasons(deltas: seq<ToolDelta>, tc: ToolDelta, k: int)
    ensures (exists j :: 0 <= j < |deltas| + 1 && Announces(deltas + [tc], j, k)) <==>
            (exists j :: 0 <= j < |deltas| && Announces(deltas, j, k)) || Announces(deltas + [tc], |deltas|, k)
  {
    hide Calls;
    var all := deltas + [tc];
    forall j | 0 <= j < |deltas|
      ensures Announces(all, j, k) <==> Announces(deltas, j, k)
    {
      assert all[..j] == deltas[..j] && all[j] == deltas[j];
    }
  }

  /** The name announced is the one known when the first such delta has come. */
  lemma {:induction false} AnnouncedAs(deltas: seq<ToolDelta>, n: nat, k: int)
    requires n < |deltas| && Announces(deltas, n, k) && k !in ShownNames(deltas[..n])
    ensures k in ShownNames(deltas)
    ensures k in LogAll(deltas[..n + 1]) && LogAll(deltas[..n + 1])[k].name != "" ==> ShownNames(deltas)[k] == LogAll(deltas[..n + 1])[k].name
    ensures k in LogAll(deltas[..n + 1]) && LogAll(deltas[..n + 1])[k].name == "" ==>
              ShownNames(deltas)[k] == if deltas[n].id != "" then "" else "tool_call"
    decreases |deltas|
  {
    hide LogAll, ShownNames, LogStep, MergeName, ShownStep, Calls, Number;
    var m := |deltas| - 1;
    var init, last := deltas[..m], deltas[m];
    assert init + [last] == deltas && deltas[..|deltas|] == deltas;
    ShownAppend(init, last);
    LogAppend(init, last);
    AnnouncedIff(init, k);
    ShownOnce(ShownNames(init), LogAll(init), last, k);
    if n < m {
      assert init[..n] == deltas[..n] && init[..n + 1] == deltas[..n + 1];
      assert Announces(init, n, k) by { SameReason(deltas, m, n, k); }
      AnnouncedAs(init, n, k);
    } else {
      LogHolds(init, k);
      ShownFirst(ShownNames(init), LogAll(init), last, k);
    }
  }

  lemma SameReason(deltas: seq<ToolDelta>, m: nat, j: nat, k: int)
    requires j < m <= |deltas|
    ensures Announces(deltas[..m], j, k) <==> Announces(deltas, j, k)
  {
    hide Calls;
    assert deltas[..m][..j] == deltas[..j];
  }

  lemma ShownFirst(shown: map<int, string>, log: ToolLog, tc: ToolDelta, k: int)
    requires k !in shown && (k in log ==> log[k].name == "") && tc.ToolDelta? && Number(log.Keys, tc) == k
    requires tc.id != "" || tc.args != "" || tc.name !in {None, Some("")}
    ensures var shown', log' := ShownStep(shown, log, tc), LogStep(log, tc);
            && k in shown' && k in log'
            && shown'[k] == if log'[k].name != "" then log'[k].name else if tc.id != "" then "" else "tool_call"
  {
    assert |log.Keys| == |log|;
  }
}
