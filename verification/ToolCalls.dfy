/** Native tool calls: what the fragments of a streamed call amount to, independently of when and
    how they are sent on. */
module ToolCalls {
  import opened Strings
  import opened Wrappers

  datatype Json =
    | Null | Bool(b: bool) | Number(lexeme: string) | Str(s: string)
    | Arr(items: seq<Json>) | Dict(fields: map<string, Json>)

  /** `json.loads` (None for its exception) and `json.dumps`. */
  datatype Codec = Codec(loads: string -> Option<Json>, dumps: Json -> string)

  /** One tool-call delta of a chunk. Malformed stands for a delta whose fields cannot be read. */
  datatype ToolDelta = Malformed | ToolDelta(index: int, id: string, name: Option<string>, args: string)

  /** A non-empty argument fragment, and the name its call had accumulated when it arrived. */
  datatype Frag = Frag(name: string, args: string)
  datatype ToolEntry = ToolEntry(name: string, frags: seq<Frag>)
  type ToolLog = map<int, ToolEntry>

  const TASK := "Task"
  const BACKGROUND := "run_in_background"

  /** Names come in fragments, or in full with every delta. */
  function MergeName(prev: string, name: string): string {
    if prev == "" || prev <= name then name
    else if name <= prev then prev
    else prev + name
  }

  function Key(log: ToolLog, tc: ToolDelta): int
    requires tc.ToolDelta?
  {
    if tc.index < 0 then |log| else tc.index
  }

  function NameAfter(log: ToolLog, tc: ToolDelta): string
    requires tc.ToolDelta?
  {
    var k := Key(log, tc);
    if tc.name.Some? then (if k in log then MergeName(log[k].name, tc.name.value) else tc.name.value)
    else if k in log then log[k].name
    else if tc.id != "" then ""
    else "tool_call"
  }

  /** The calls known once the delta's name and id are taken in. */
  function Opened(log: ToolLog, tc: ToolDelta): ToolLog
    requires tc.ToolDelta?
  {
    var k := Key(log, tc);
    if k in log then log[k := ToolEntry(NameAfter(log, tc), log[k].frags)]
    else if tc.name.Some? || tc.id != "" || tc.args != "" then log[k := ToolEntry(NameAfter(log, tc), [])]
    else log
  }

  /** The calls known after one more delta. */
  function LogStep(log: ToolLog, tc: ToolDelta): ToolLog {
    if tc.Malformed? then log
    else
      var k, log' := Key(log, tc), Opened(log, tc);
      if tc.args == "" then log'
      else log'[k := ToolEntry(log'[k].name, log'[k].frags + [Frag(log'[k].name, tc.args)])]
  }

  function LogAll(deltas: seq<ToolDelta>): ToolLog {
    if deltas == [] then map[] else LogStep(LogAll(deltas[..|deltas| - 1]), deltas[|deltas| - 1])
  }

  lemma LogAppend(deltas: seq<ToolDelta>, tc: ToolDelta)
    ensures LogAll(deltas + [tc]) == LogStep(LogAll(deltas), tc)
  {
    assert (deltas + [tc])[..|deltas|] == deltas;
  }

  /** The names under which calls are announced, after one more delta: a call is announced once it has
      a name or an id, or at the latest with its arguments, and then for good. */
  function ShownStep(shown: map<int, string>, log: ToolLog, tc: ToolDelta): map<int, string> {
    if tc.Malformed? then shown
    else
      var k := Key(log, tc);
      var name := if tc.name.Some? || k in log then NameAfter(log, tc) else "";
      if k in shown then shown
      else if name != "" || tc.id != "" then shown[k := name]
      else if tc.args != "" then shown[k := "tool_call"]
      else shown
  }

  function ShownNames(deltas: seq<ToolDelta>): map<int, string> {
    if deltas == [] then map[]
    else
      var init := deltas[..|deltas| - 1];
      ShownStep(ShownNames(init), LogAll(init), deltas[|deltas| - 1])
  }

  lemma ShownAppend(deltas: seq<ToolDelta>, tc: ToolDelta)
    ensures ShownNames(deltas + [tc]) == ShownStep(ShownNames(deltas), LogAll(deltas), tc)
  {
    hide ShownStep, LogAll;
    var more := deltas + [tc];
    assert more[..|more| - 1] == deltas && more[|more| - 1] == tc && more != [];
  }

  /** The announced name is the beginning of the name the call ends up with: a name that comes in
      fragments is announced by its first one. */
  lemma {:induction false} ShownIsBeginning(deltas: seq<ToolDelta>)
    ensures forall k :: k in ShownNames(deltas) ==>
              k in LogAll(deltas) && (ShownNames(deltas)[k] <= LogAll(deltas)[k].name || ShownNames(deltas)[k] == "tool_call")
  {
    if deltas != [] {
      ShownIsBeginning(deltas[..|deltas| - 1]);
    }
  }

  /** The fragments that arrived while the call was (not) named Task. */
  function ArgsOf(frags: seq<Frag>, task: bool): seq<string> {
    if frags == [] then []
    else
      var last := frags[|frags| - 1];
      ArgsOf(frags[..|frags| - 1], task) + (if (last.name == TASK) == task then [last.args] else [])
  }

  lemma ArgsAppend(frags: seq<Frag>, f: Frag, task: bool)
    ensures ArgsOf(frags + [f], task) == ArgsOf(frags, task) + (if (f.name == TASK) == task then [f.args] else [])
  {
    assert (frags + [f])[..|frags|] == frags;
  }

  /** The value of the shortest run of leading fragments that is JSON. */
  function FirstJson(codec: Codec, parts: seq<string>): Option<Json> {
    if parts == [] then None
    else
      var earlier := FirstJson(codec, parts[..|parts| - 1]);
      if earlier.Some? then earlier else codec.loads(Join(parts))
  }

  lemma FirstJsonAppend(codec: Codec, parts: seq<string>, p: string)
    ensures FirstJson(codec, parts + [p]) ==
            if FirstJson(codec, parts).Some? then FirstJson(codec, parts) else codec.loads(Join(parts) + p)
  {
    assert (parts + [p])[..|parts|] == parts;
    JoinAppend(parts, p);
  }

  /** So it is: the value of the first leading fragments that make JSON, if any do. */
  lemma {:induction false} FirstJsonIs(codec: Codec, parts: seq<string>, n: nat)
    requires n < |parts| && forall i :: 0 < i <= n ==> codec.loads(Join(parts[..i])).None?
    ensures codec.loads(Join(parts[..n + 1])).Some? ==> FirstJson(codec, parts) == codec.loads(Join(parts[..n + 1]))
    ensures n + 1 == |parts| ==> FirstJson(codec, parts) == codec.loads(Join(parts))
    decreases |parts|
  {
    hide Join;
    var init := parts[..|parts| - 1];
    assert forall i :: 0 <= i <= |init| ==> init[..i] == parts[..i];
    assert parts[..|parts|] == parts;
    if n < |init| {
      FirstJsonIs(codec, init, n);
    } else if n > 0 {
      FirstJsonIs(codec, init, n - 1);
    }
  }

  function Foreground(fields: map<string, Json>): Json {
    Dict(fields[BACKGROUND := Bool(false)])
  }

  predicate IsObject(j: Option<Json>) {
    j.Some? && j.value.Dict?
  }

  /** What is sent for the fragments of a Task call: never a fragment, always in the foreground. */
  function TaskPayload(codec: Codec, parts: seq<string>): string {
    match FirstJson(codec, parts)
    case Some(Dict(fields)) => codec.dumps(Foreground(fields))
    case _ => "{}"
  }

  /** The object that the fragments make, sent to the foreground and otherwise as it is, or `{}`. */
  ghost predicate PayloadFor(codec: Codec, parts: seq<string>, payload: string) {
    match FirstJson(codec, parts)
    case Some(Dict(fields)) => exists f :: payload == codec.dumps(Dict(f)) && InForeground(f, fields)
    case _ => payload == "{}"
  }

  ghost predicate InForeground(f: map<string, Json>, given: map<string, Json>) {
    && (forall k :: k in f <==> k in given || k == BACKGROUND)
    && (forall k :: k in given && k != BACKGROUND ==> f[k] == given[k])
    && f[BACKGROUND] == Bool(false)
  }

  lemma TaskPayloadIs(codec: Codec, parts: seq<string>)
    ensures PayloadFor(codec, parts, TaskPayload(codec, parts))
  {
    match FirstJson(codec, parts) {
      case Some(Dict(fields)) => assert InForeground(Foreground(fields).fields, fields);
      case _ =>
    }
  }

  /** `sent` is `raw` with `patched` put in at one place. */
  ghost predicate Inserted(sent: seq<string>, raw: seq<string>, patched: string) {
    exists j :: 0 <= j < |sent| && sent[j] == patched && sent[..j] + sent[j + 1..] == raw
  }

  /** Ordinary fragments are passed on one by one and in order; the fragments that arrived under the
      name Task are passed on as a single payload. */
  ghost predicate Delivered(codec: Codec, frags: seq<Frag>, sent: seq<string>) {
    var raw, task := ArgsOf(frags, false), ArgsOf(frags, true);
    if task == [] then sent == raw else Inserted(sent, raw, TaskPayload(codec, task))
  }

  /** A call that is named Task from its first fragment on gets one payload for all its fragments: an
      object sent to the foreground, or `{}`. A call that is never named Task gets its fragments. */
  lemma {:induction false} DeliveredToTask(codec: Codec, frags: seq<Frag>, sent: seq<string>)
    requires Delivered(codec, frags, sent) && frags != []
    ensures (forall f :: f in frags ==> f.name == TASK) ==>
              |sent| == 1 && PayloadFor(codec, ArgsOf(frags, true), sent[0])
    ensures (forall f :: f in frags ==> f.name != TASK) ==> sent == ArgsOf(frags, false) && |sent| == |frags|
  {
    if forall f :: f in frags ==> f.name == TASK {
      AllArgs(frags, true);
      var j :| 0 <= j < |sent| && sent[j] == TaskPayload(codec, ArgsOf(frags, true)) && sent[..j] + sent[j + 1..] == [];
      TaskPayloadIs(codec, ArgsOf(frags, true));
      assert |sent[..j] + sent[j + 1..]| == |sent| - 1;
    }
    if forall f :: f in frags ==> f.name != TASK {
      AllArgs(frags, false);
    }
  }

  lemma {:induction false} AllArgs(frags: seq<Frag>, task: bool)
    requires forall f :: f in frags ==> (f.name == TASK) == task
    ensures ArgsOf(frags, !task) == [] && |ArgsOf(frags, task)| == |frags|
  {
    if frags != [] {
      assert frags[|frags| - 1] in frags;
      AllArgs(frags[..|frags| - 1], task);
    }
  }

  /** One more fragment makes the held arguments of a Task call JSON that is not an object. */
  predicate TaskBreaks(codec: Codec, frags: seq<Frag>, args: string) {
    var task := ArgsOf(frags, true);
    var parsed := codec.loads(Join(task) + args);
    FirstJson(codec, task).None? && parsed.Some? && !IsObject(parsed)
  }

  /** Processing this delta raises an exception: it cannot be read, or it breaks a Task call. */
  predicate Raises(codec: Codec, log: ToolLog, tc: ToolDelta) {
    || tc.Malformed?
    || (tc.args != "" && NameAfter(log, tc) == TASK
        && TaskBreaks(codec, if Key(log, tc) in log then log[Key(log, tc)].frags else [], tc.args))
  }

  // ---------------------------------------------------------------- the state kept for a call

  datatype ToolCallState =
    ToolCallState(blockIndex: int, name: string, started: bool, taskArgBuffer: string, taskArgsEmitted: bool)

  /** The state of a call, and what was sent for it so far, account for its fragments. `healthy` is
      lost when processing has raised an exception. */
  ghost predicate Accounts(codec: Codec, st: ToolCallState, e: ToolEntry, sent: seq<string>, healthy: bool) {
    var raw, task := ArgsOf(e.frags, false), ArgsOf(e.frags, true);
    && st.name == e.name
    && (!st.started ==> e.frags == [])
    && if task == [] || !st.taskArgsEmitted then
         && !st.taskArgsEmitted && sent == raw && st.taskArgBuffer == Join(task)
         && (forall p :: p in task ==> p != "")
         && (healthy ==> FirstJson(codec, task).None?)
         && !IsObject(FirstJson(codec, task))
         && (task != [] ==> FirstJson(codec, task) == codec.loads(Join(task)))
       else
         && st.taskArgBuffer == "" && Inserted(sent, raw, TaskPayload(codec, task))
         && FirstJson(codec, task).Some?
  }

  lemma InsertedAppend(sent: seq<string>, raw: seq<string>, patched: string, p: string)
    requires Inserted(sent, raw, patched)
    ensures Inserted(sent + [p], raw + [p], patched)
  {
    var j :| 0 <= j < |sent| && sent[j] == patched && sent[..j] + sent[j + 1..] == raw;
    assert (sent + [p])[..j] + (sent + [p])[j + 1..] == raw + [p];
  }

  lemma InsertedLast(raw: seq<string>, patched: string)
    ensures Inserted(raw + [patched], raw, patched)
  {
    assert (raw + [patched])[..|raw|] + (raw + [patched])[|raw| + 1..] == raw;
  }

  /** A fragment that is not part of a Task call is sent as it is. */
  lemma AccountsRaw(codec: Codec, st: ToolCallState, e: ToolEntry, sent: seq<string>, name: string, args: string)
    requires Accounts(codec, st, e, sent, true) && name != TASK
    ensures Accounts(codec, st.(name := name, started := true), ToolEntry(name, e.frags + [Frag(name, args)]), sent + [args], true)
  {
    ArgsAppend(e.frags, Frag(name, args), false);
    ArgsAppend(e.frags, Frag(name, args), true);
    var raw, task := ArgsOf(e.frags, false), ArgsOf(e.frags, true);
    assert task + [] == task;
    if task != [] && st.taskArgsEmitted {
      InsertedAppend(sent, raw, TaskPayload(codec, task), args);
    }
  }

  lemma AccountsBreak(codec: Codec, st: ToolCallState, e: ToolEntry, sent: seq<string>, args: string)
    requires Accounts(codec, st, e, sent, true)
    ensures TaskBreaks(codec, e.frags, args) <==>
            !st.taskArgsEmitted && codec.loads(st.taskArgBuffer + args).Some? && !IsObject(codec.loads(st.taskArgBuffer + args))
  {
  }

  /** A Task fragment: dropped once the payload is out, otherwise held until the text is JSON. */
  lemma AccountsTask(codec: Codec, st: ToolCallState, e: ToolEntry, sent: seq<string>, args: string,
                     st': ToolCallState, sent': seq<string>)
    requires Accounts(codec, st, e, sent, true) && args != ""
    requires st'.name == TASK && st'.started
    requires var text := st.taskArgBuffer + args;
             if st.taskArgsEmitted then st' == st.(name := TASK, started := true) && sent' == sent
             else if IsObject(codec.loads(text)) then
               st'.taskArgsEmitted && st'.taskArgBuffer == "" &&
               sent' == sent + [codec.dumps(Foreground(codec.loads(text).value.fields))]
             else !st'.taskArgsEmitted && st'.taskArgBuffer == text && sent' == sent
    ensures Accounts(codec, st', ToolEntry(TASK, e.frags + [Frag(TASK, args)]), sent',
                     st.taskArgsEmitted || codec.loads(st.taskArgBuffer + args).None? || IsObject(codec.loads(st.taskArgBuffer + args)))
  {
    var raw, task := ArgsOf(e.frags, false), ArgsOf(e.frags, true);
    ArgsAppend(e.frags, Frag(TASK, args), false);
    ArgsAppend(e.frags, Frag(TASK, args), true);
    FirstJsonAppend(codec, task, args);
    JoinAppend(task, args);
    assert raw + [] == raw;
    if sent' != sent {
      InsertedLast(raw, TaskPayload(codec, task + [args]));
    }
  }

  /** At the end a held buffer is sent as `{}`: it can no longer become an object. */
  lemma AccountsFlush(codec: Codec, st: ToolCallState, e: ToolEntry, sent: seq<string>, healthy: bool)
    requires Accounts(codec, st, e, sent, healthy)
    ensures st.taskArgBuffer != "" ==>
              && !st.taskArgsEmitted && st.started
              && !IsObject(codec.loads(st.taskArgBuffer))
              && Delivered(codec, e.frags, sent + ["{}"])
    ensures st.taskArgBuffer == "" ==> Delivered(codec, e.frags, sent)
  {
    var raw, task := ArgsOf(e.frags, false), ArgsOf(e.frags, true);
    if task != [] && !st.taskArgsEmitted {
      JoinAppend(task[..|task| - 1], task[|task| - 1]);
      assert task == task[..|task| - 1] + [task[|task| - 1]];
      assert task[|task| - 1] in task;
      InsertedLast(raw, "{}");
    }
  }
}
