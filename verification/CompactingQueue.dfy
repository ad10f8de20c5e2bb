/** The compacting message queue: at most one waiting task per key, the latest one. */
module CompactingQueue {
  import opened Wrappers

  type Key = string
  type Value = string
  type Future = nat

  /** What happened so far: a task was queued, the worker took one, the task ended, a caller gave up. */
  datatype Op =
    | Enqueued(key: Key, value: Value, future: Future)
    | Popped(key: Key)
    | Finished(key: Key, ok: bool)
    | Abandoned(future: Future)

  datatype Entry = Entry(value: Value, futures: seq<Future>)
  datatype Flight = Flight(key: Key, value: Value, futures: seq<Future>)
  datatype Resolution = Outcome(value: Value, ok: bool) | Cancelled

  // ---------------------------------------------------------------- reference: the history alone

  /** The value queued last for a key: what the key shows after running every task in order. */
  function Latest(h: seq<Op>, key: Key): Option<Value> {
    if h == [] then None
    else
      match h[|h| - 1]
      case Enqueued(k, v, _) => if k == key then Some(v) else Latest(h[..|h| - 1], key)
      case _ => Latest(h[..|h| - 1], key)
  }

  /** The last task that ended for this key failed. */
  function LastFailed(h: seq<Op>, key: Key): bool {
    if h == [] then false
    else
      match h[|h| - 1]
      case Finished(k, ok) => if k == key then !ok else LastFailed(h[..|h| - 1], key)
      case _ => LastFailed(h[..|h| - 1], key)
  }

  /** The task the worker has: its key, and the value that was the latest when it was taken. */
  function InHand(h: seq<Op>): Option<(Key, Value)> {
    if h == [] then None
    else
      match h[|h| - 1]
      case Popped(k) => if Latest(h[..|h| - 1], k).Some? then Some((k, Latest(h[..|h| - 1], k).value)) else None
      case Finished(_, _) => None
      case _ => InHand(h[..|h| - 1])
  }

  /** What the last successful task for this key has written. */
  function Written(h: seq<Op>, key: Key): Option<Value> {
    if h == [] then None
    else
      var init := h[..|h| - 1];
      match h[|h| - 1]
      case Finished(k, ok) =>
        if k == key && ok && InHand(init).Some? then Some(InHand(init).value.1) else Written(init, key)
      case _ => Written(init, key)
  }

  datatype Fate = Unknown | Waiting(key: Key) | Taken(value: Value) | Settled(value: Value, ok: bool) | Dropped

  /** What becomes of a caller's future: it waits for its key, is taken with the value that is the
      latest at that moment, and is settled with that value when the task ends. */
  function FateOf(h: seq<Op>, f: Future): Fate {
    if h == [] then Unknown
    else
      var init := h[..|h| - 1];
      var before := FateOf(init, f);
      match h[|h| - 1]
      case Enqueued(k, _, g) => if g == f then Waiting(k) else before
      case Popped(k) => if before == Waiting(k) && Latest(init, k).Some? then Taken(Latest(init, k).value) else before
      case Finished(_, ok) => if before.Taken? then Settled(before.value, ok) else before
      case Abandoned(g) => if g == f && (before.Waiting? || before.Taken?) then Dropped else before
  }

  lemma HistoryAppend(h: seq<Op>, op: Op)
    ensures (h + [op])[..|h|] == h && (h + [op])[|h|] == op
  {
  }

  /** Each future belongs to one request. */
  predicate FreshFutures(h: seq<Op>) {
    forall i, j :: 0 <= i < j < |h| && h[i].Enqueued? && h[j].Enqueued? ==> h[i].future != h[j].future
  }

  lemma {:induction false} UnknownIsUnused(h: seq<Op>, f: Future)
    ensures FateOf(h, f).Unknown? <==> forall i :: 0 <= i < |h| && h[i].Enqueued? ==> h[i].future != f
  {
    if h != [] {
      var init := h[..|h| - 1];
      UnknownIsUnused(init, f);
      assert forall i :: 0 <= i < |init| ==> init[i] == h[i];
    }
  }

  /** A settled future stays as it is, whatever happens next: it is resolved once. */
  lemma {:induction false} SettledForGood(h: seq<Op>, more: seq<Op>, f: Future)
    requires FreshFutures(h + more) && (FateOf(h, f).Settled? || FateOf(h, f).Dropped?)
    ensures FateOf(h + more, f) == FateOf(h, f)
  {
    if more == [] {
      assert h + more == h;
    } else {
      var init, all := more[..|more| - 1], h + more;
      assert all[..|all| - 1] == h + init;
      SettledForGood(h, init, f);
      UnknownIsUnused(h, f);
      var i :| 0 <= i < |h| && h[i].Enqueued? && h[i].future == f;
      assert all[i] == h[i];
    }
  }

  /** The same in terms of positions: a settled future was queued, its key was taken for the first time
      after that, and it got the value queued last before the taking. */
  lemma {:induction false} SettledWithLatest(h: seq<Op>, f: Future) returns (queued: nat, taken: nat)
    requires FreshFutures(h) && (FateOf(h, f).Settled? || FateOf(h, f).Taken?)
    ensures queued < taken < |h| && h[queued].Enqueued? && h[queued].future == f && h[taken] == Popped(h[queued].key)
    ensures forall i :: queued < i < taken ==> h[i] != h[taken]
    ensures Latest(h[..taken], h[queued].key) == Some(FateOf(h, f).value)
  {
    var init := h[..|h| - 1];
    var last := h[|h| - 1];
    if last.Popped? && FateOf(init, f) == Waiting(last.key) {
      queued := WaitingSince(init, f);
      taken := |h| - 1;
    } else {
      queued, taken := SettledWithLatest(init, f);
      assert init[..taken] == h[..taken];
    }
  }

  lemma {:induction false} WaitingSince(h: seq<Op>, f: Future) returns (queued: nat)
    requires FateOf(h, f).Waiting?
    ensures queued < |h| && h[queued].Enqueued? && h[queued].future == f && h[queued].key == FateOf(h, f).key
    ensures forall i :: queued < i < |h| ==> h[i] != Popped(h[queued].key)
  {
    var init := h[..|h| - 1];
    match h[|h| - 1]
    case Enqueued(k, _, g) =>
      if g == f {
        queued := |h| - 1;
      } else {
        queued := WaitingSince(init, f);
      }
    case Popped(k) =>
      queued := WaitingSince(init, f);
      SomethingQueued(init, queued);
    case _ =>
      queued := WaitingSince(init, f);
  }

  lemma {:induction false} SomethingQueued(h: seq<Op>, i: nat)
    requires i < |h| && h[i].Enqueued?
    ensures Latest(h, h[i].key).Some?
  {
    if i < |h| - 1 {
      SomethingQueued(h[..|h| - 1], i);
    }
  }

  // ---------------------------------------------------------------- what the queue's fields have to say

  /** A key shows its waiting task, else the task in flight, else what was last written. */
  function Shown(queueMap: map<Key, Entry>, flight: Option<Flight>, world: map<Key, Value>, key: Key): Option<Value> {
    if key in queueMap then Some(queueMap[key].value)
    else if flight.Some? && flight.value.key == key then Some(flight.value.value)
    else if key in world then Some(world[key])
    else None
  }

  predicate Underway(queueMap: map<Key, Entry>, flight: Option<Flight>, key: Key) {
    key in queueMap || (flight.Some? && flight.value.key == key)
  }

  predicate ListsKeys(queueList: seq<Key>, queueMap: map<Key, Entry>) {
    && (forall i :: 0 <= i < |queueList| ==> queueList[i] in queueMap)
    && (forall k :: k in queueMap ==> k in queueList)
    && (forall i, j :: 0 <= i < j < |queueList| ==> queueList[i] != queueList[j])
  }

  /** Dropping overwritten tasks loses nothing: every key shows the value queued last for it, unless
      the last attempt to write it failed. */
  ghost predicate MeaningKept(h: seq<Op>, queueMap: map<Key, Entry>, flight: Option<Flight>, world: map<Key, Value>) {
    forall k: Key :: Underway(queueMap, flight, k) || !LastFailed(h, k) ==> Shown(queueMap, flight, world, k) == Latest(h, k)
  }

  /** Every future is where its fate says. */
  ghost predicate FuturesKept(h: seq<Op>, queueMap: map<Key, Entry>, flight: Option<Flight>, done: map<Future, Resolution>) {
    forall f: Future :: FutureKept(h, queueMap, flight, done, f)
  }

  ghost predicate FutureKept(h: seq<Op>, queueMap: map<Key, Entry>, flight: Option<Flight>, done: map<Future, Resolution>, f: Future) {
    && (forall k :: k in queueMap && f in queueMap[k].futures ==> FateOf(h, f) == (if f in done then Dropped else Waiting(k)))
    && (flight.Some? && f in flight.value.futures ==> FateOf(h, f) == (if f in done then Dropped else Taken(flight.value.value)))
    && match FateOf(h, f)
       case Unknown => f !in done
       case Waiting(k) => k in queueMap && f in queueMap[k].futures && f !in done
       case Taken(_) => flight.Some? && f in flight.value.futures && f !in done
       case Settled(v, ok) => f in done && done[f] == Outcome(v, ok)
       case Dropped => f in done && done[f] == Cancelled
  }

  /** The worker has the task that was last taken, and the platform shows what was last written. */
  ghost predicate EffectsKept(h: seq<Op>, flight: Option<Flight>, world: map<Key, Value>) {
    && InHand(h) == (if flight.Some? then Some((flight.value.key, flight.value.value)) else None)
    && forall k: Key :: Written(h, k) == if k in world then Some(world[k]) else None
  }

  class Queue {
    var queueList: seq<Key>
    var queueMap: map<Key, Entry>
    /** The task the worker has taken and not finished. */
    var flight: Option<Flight>
    /** The futures that are done. */
    var done: map<Future, Resolution>
    /** What the platform shows: the values the tasks have written. */
    var world: map<Key, Value>
    ghost var history: seq<Op>

    ghost predicate Valid()
      reads this
    {
      && ListsKeys(queueList, queueMap)
      && MeaningKept(history, queueMap, flight, world)
      && FuturesKept(history, queueMap, flight, done)
      && EffectsKept(history, flight, world)
    }

    constructor ()
      ensures Valid() && history == [] && queueList == [] && queueMap == map[] && flight == None
    {
      queueList, queueMap, flight, done, world, history := [], map[], None, map[], map[], [];
    }

    lemma KeysAreListed()
      requires Valid()
      ensures queueMap.Keys == set k | k in queueList
      ensures MeaningKept(history, queueMap, flight, world) && FuturesKept(history, queueMap, flight, done) && EffectsKept(history, flight, world)
    {
    }

    /** Replaces the waiting task of the key, keeping its callers, or adds one at either end. */
    method Enqueue(key: Key, value: Value, future: Future, front: bool)
      requires Valid() && FateOf(history, future).Unknown?
      modifies this
      ensures Valid() && history == old(history) + [Enqueued(key, value, future)]
      ensures flight == old(flight) && done == old(done) && world == old(world)
      ensures queueMap == old(queueMap)[key := Entry(value, (if key in old(queueMap) then old(queueMap)[key].futures else []) + [future])]
      ensures queueList == if key in old(queueMap) then old(queueList)
                           else if front then [key] + old(queueList) else old(queueList) + [key]
    {
      hide FateOf, MeaningKept, FuturesKept, EffectsKept, ListsKeys;
      ListsMore(queueList, queueMap, key, Entry(value, (if key in queueMap then queueMap[key].futures else []) + [future]));
      ghost var op := Enqueued(key, value, future);
      OtherEffects(history, flight, world, op);
      ghost var before := queueMap;
      if key in queueMap {
        var oldFutures := queueMap[key].futures;
        queueMap := queueMap[key := Entry(value, oldFutures + [future])];
      } else {
        queueMap := queueMap[key := Entry(value, [future])];
        queueList := if front then [key] + queueList else queueList + [key];
      }
      assert [] + [future] == [future];
      EnqueueKeeps(history, before, flight, done, world, key, value, future, queueMap);
      history := history + [op];
    }

    /** The worker takes the task at the head of the queue, with all its callers. */
    method Pop() returns (key: Key)
      requires Valid() && queueList != [] && flight.None?
      modifies this
      ensures Valid() && key == old(queueList)[0] && history == old(history) + [Popped(key)]
      ensures queueList == old(queueList)[1..] && queueMap == old(queueMap) - {key}
      ensures flight.Some? && flight.value.key == key && Latest(old(history), key) == Some(flight.value.value)
      ensures done == old(done) && world == old(world)
    {
      hide FateOf, Latest, LastFailed, InHand, Written;
      key := queueList[0];
      var entry := queueMap[key];
      PopEffects(history, world, key);
      PopKeeps(history, queueMap, done, world, key);
      queueList := queueList[1..];
      queueMap := queueMap - {key};
      flight := Some(Flight(key, entry.value, entry.futures));
      history := history + [Popped(key)];
    }

    /** The task ends: it has written its value or failed, and its callers that still wait are told. */
    method Finish(ok: bool)
      requires Valid() && flight.Some?
      modifies this
      ensures Valid() && flight.None? && history == old(history) + [Finished(old(flight).value.key, ok)]
      ensures queueList == old(queueList) && queueMap == old(queueMap)
      ensures world == if ok then old(world)[old(flight).value.key := old(flight).value.value] else old(world)
      ensures forall f :: f in old(done) ==> f in done && done[f] == old(done)[f]
    {
      hide FateOf, Latest, LastFailed, FuturesKept, MeaningKept, ListsKeys, EffectsKept;
      FinishEffects(history, flight, world, ok);
      var task := flight.value;
      ghost var before, was := done, world;
      if ok {
        world := world[task.key := task.value];
      }
      for n := 0 to |task.futures|
        invariant flight == Some(task) && queueList == old(queueList) && queueMap == old(queueMap) && history == old(history)
        invariant world == if ok then was[task.key := task.value] else was
        invariant Told(before, task.futures[..n], Outcome(task.value, ok), done)
      {
        var f := task.futures[n];
        assert task.futures[..n + 1] == task.futures[..n] + [f];
        if f !in done {
          done := done[f := Outcome(task.value, ok)];
        }
      }
      assert task.futures[..|task.futures|] == task.futures;
      FinishKeeps(history, queueMap, task, before, was, ok, done);
      flight := None;
      history := history + [Finished(task.key, ok)];
    }

    /** A caller stops waiting. */
    method Abandon(f: Future)
      requires Valid() && !FateOf(history, f).Unknown?
      modifies `done, `history
      ensures Valid() && history == old(history) + [Abandoned(f)]
      ensures done == if f in old(done) then old(done) else old(done)[f := Cancelled]
    {
      hide FateOf, Latest, LastFailed, InHand, Written;
      OtherEffects(history, flight, world, Abandoned(f));
      AbandonKeeps(history, queueMap, flight, done, world, f);
      if f !in done {
        done := done[f := Cancelled];
      }
      history := history + [Abandoned(f)];
    }
  }

  lemma ListsMore(queueList: seq<Key>, queueMap: map<Key, Entry>, key: Key, e: Entry)
    requires ListsKeys(queueList, queueMap)
    ensures if key in queueMap then ListsKeys(queueList, queueMap[key := e])
            else ListsKeys([key] + queueList, queueMap[key := e]) && ListsKeys(queueList + [key], queueMap[key := e])
  {
  }

  lemma OtherEffects(h: seq<Op>, flight: Option<Flight>, world: map<Key, Value>, op: Op)
    requires EffectsKept(h, flight, world) && (op.Enqueued? || op.Abandoned?)
    ensures EffectsKept(h + [op], flight, world)
  {
    HistoryAppend(h, op);
  }

  lemma PopEffects(h: seq<Op>, world: map<Key, Value>, key: Key)
    requires EffectsKept(h, None, world)
    ensures forall futures, value :: Latest(h, key) == Some(value) ==> EffectsKept(h + [Popped(key)], Some(Flight(key, value, futures)), world)
  {
    HistoryAppend(h, Popped(key));
  }

  lemma FinishEffects(h: seq<Op>, flight: Option<Flight>, world: map<Key, Value>, ok: bool)
    requires EffectsKept(h, flight, world) && flight.Some?
    ensures EffectsKept(h + [Finished(flight.value.key, ok)], None, if ok then world[flight.value.key := flight.value.value] else world)
  {
    HistoryAppend(h, Finished(flight.value.key, ok));
  }

  /** The futures among `futures` that were not done are now. */
  ghost predicate Told(before: map<Future, Resolution>, futures: seq<Future>, r: Resolution, after: map<Future, Resolution>) {
    && (forall f :: f in before ==> f in after && after[f] == before[f])
    && (forall f :: f in futures && f !in before ==> f in after && after[f] == r)
    && (forall f :: f in after ==> f in before || f in futures)
  }

  lemma EnqueueKeeps(h: seq<Op>, queueMap: map<Key, Entry>, flight: Option<Flight>, done: map<Future, Resolution>, world: map<Key, Value>,
                     key: Key, value: Value, future: Future, queueMap': map<Key, Entry>)
    requires MeaningKept(h, queueMap, flight, world) && FuturesKept(h, queueMap, flight, done)
    requires FateOf(h, future).Unknown?
    requires queueMap' == queueMap[key := Entry(value, (if key in queueMap then queueMap[key].futures else []) + [future])]
    ensures var h' := h + [Enqueued(key, value, future)];
            MeaningKept(h', queueMap', flight, world) && FuturesKept(h', queueMap', flight, done)
  {
    var h' := h + [Enqueued(key, value, future)];
    HistoryAppend(h, Enqueued(key, value, future));
    forall f: Future
      ensures FutureKept(h', queueMap', flight, done, f)
    {
      assert FutureKept(h, queueMap, flight, done, f);
    }
  }

  lemma PopKeeps(h: seq<Op>, queueMap: map<Key, Entry>, done: map<Future, Resolution>, world: map<Key, Value>, key: Key)
    requires MeaningKept(h, queueMap, None, world) && FuturesKept(h, queueMap, None, done) && key in queueMap
    ensures var h', flight := h + [Popped(key)], Some(Flight(key, queueMap[key].value, queueMap[key].futures));
            && Latest(h, key) == Some(queueMap[key].value)
            && MeaningKept(h', queueMap - {key}, flight, world) && FuturesKept(h', queueMap - {key}, flight, done)
  {
    var h', flight := h + [Popped(key)], Some(Flight(key, queueMap[key].value, queueMap[key].futures));
    HistoryAppend(h, Popped(key));
    assert Underway(queueMap, None, key);
    forall f: Future
      ensures FutureKept(h', queueMap - {key}, flight, done, f)
    {
      assert FutureKept(h, queueMap, None, done, f);
    }
    forall k: Key | Underway(queueMap - {key}, flight, k) || !LastFailed(h', k)
      ensures Shown(queueMap - {key}, flight, world, k) == Latest(h', k)
    {
      assert Underway(queueMap, None, k) || !LastFailed(h, k);
    }
  }

  lemma FinishKeeps(h: seq<Op>, queueMap: map<Key, Entry>, task: Flight, done: map<Future, Resolution>, world: map<Key, Value>,
                    ok: bool, done': map<Future, Resolution>)
    requires MeaningKept(h, queueMap, Some(task), world) && FuturesKept(h, queueMap, Some(task), done)
    requires Told(done, task.futures, Outcome(task.value, ok), done')
    ensures var h', world' := h + [Finished(task.key, ok)], if ok then world[task.key := task.value] else world;
            MeaningKept(h', queueMap, None, world') && FuturesKept(h', queueMap, None, done')
  {
    var h', world' := h + [Finished(task.key, ok)], if ok then world[task.key := task.value] else world;
    HistoryAppend(h, Finished(task.key, ok));
    forall f: Future
      ensures FutureKept(h', queueMap, None, done', f)
    {
      assert FutureKept(h, queueMap, Some(task), done, f);
    }
    forall k: Key | Underway(queueMap, None, k) || !LastFailed(h', k)
      ensures Shown(queueMap, None, world', k) == Latest(h', k)
    {
      assert Underway(queueMap, Some(task), k) || !LastFailed(h, k);
    }
  }

  lemma AbandonKeeps(h: seq<Op>, queueMap: map<Key, Entry>, flight: Option<Flight>, done: map<Future, Resolution>, world: map<Key, Value>, f: Future)
    requires MeaningKept(h, queueMap, flight, world) && FuturesKept(h, queueMap, flight, done) && !FateOf(h, f).Unknown?
    ensures var h', done' := h + [Abandoned(f)], if f in done then done else done[f := Cancelled];
            MeaningKept(h', queueMap, flight, world) && FuturesKept(h', queueMap, flight, done')
  {
    var h', done' := h + [Abandoned(f)], if f in done then done else done[f := Cancelled];
    HistoryAppend(h, Abandoned(f));
    forall g: Future
      ensures FutureKept(h', queueMap, flight, done', g)
    {
      assert FutureKept(h, queueMap, flight, done, g);
    }
    forall k: Key | Underway(queueMap, flight, k) || !LastFailed(h', k)
      ensures Shown(queueMap, flight, world, k) == Latest(h', k)
    {
      assert Underway(queueMap, flight, k) || !LastFailed(h, k);
    }
  }

  // ---------------------------------------------------------------- whole runs

  datatype Command = Put(key: Key, value: Value, front: bool) | Take | End(ok: bool) | GiveUp(future: Future)

  /** What a run of commands amounts to, with values and callers left aside: the keys waiting, in
      order; the key of the task taken; the number of the next future; and what has happened. */
  datatype Book = Book(waiting: seq<Key>, taken: Option<Key>, next: nat, history: seq<Op>)

  /** Callers get fresh futures; the worker takes a task only when it has none and one is waiting. */
  function Noted(b: Book, c: Command): Book {
    match c
    case Put(key, value, front) =>
      b.(waiting := if key in b.waiting then b.waiting else if front then [key] + b.waiting else b.waiting + [key],
         next := b.next + 1, history := b.history + [Enqueued(key, value, b.next)])
    case Take =>
      if b.waiting == [] || b.taken.Some? then b
      else b.(waiting := b.waiting[1..], taken := Some(b.waiting[0]), history := b.history + [Popped(b.waiting[0])])
    case End(ok) =>
      if b.taken.None? then b else b.(taken := None, history := b.history + [Finished(b.taken.value, ok)])
    case GiveUp(f) =>
      if f < b.next then b.(history := b.history + [Abandoned(f)]) else b
  }

  function BookOf(commands: seq<Command>): Book {
    if commands == [] then Book([], None, 0, []) else Noted(BookOf(commands[..|commands| - 1]), commands[|commands| - 1])
  }

  function Puts(commands: seq<Command>): seq<(Key, Value)> {
    if commands == [] then []
    else
      var last := commands[|commands| - 1];
      Puts(commands[..|commands| - 1]) + if last.Put? then [(last.key, last.value)] else []
  }

  function Requests(h: seq<Op>): seq<(Key, Value)> {
    if h == [] then []
    else
      var last := h[|h| - 1];
      Requests(h[..|h| - 1]) + if last.Enqueued? then [(last.key, last.value)] else []
  }

  /** Every task put in is in the history, in order, and no other. */
  lemma {:induction false} EveryPutIsNoted(commands: seq<Command>)
    ensures Requests(BookOf(commands).history) == Puts(commands)
  {
    if commands != [] {
      var init, last := commands[..|commands| - 1], commands[|commands| - 1];
      EveryPutIsNoted(init);
      NotedRequest(BookOf(init), last);
    }
  }

  lemma NotedRequest(b: Book, c: Command)
    ensures Requests(Noted(b, c).history) == Requests(b.history) + if c.Put? then [(c.key, c.value)] else []
  {
    var more := Noted(b, c).history[|b.history|..];
    assert more == [] || more == [more[0]];
    if more != [] {
      HistoryAppend(b.history, more[0]);
    }
    assert Requests(b.history) + [] == Requests(b.history);
  }

  /** Every key waiting has been queued, a task taken is in the worker's hand, and futures are numbered. */
  ghost predicate BookKept(b: Book) {
    && (forall k :: k in b.waiting ==> Latest(b.history, k).Some?)
    && (if b.taken.Some? then InHand(b.history).Some? && InHand(b.history).value.0 == b.taken.value else InHand(b.history).None?)
    && NumberedBelow(b.history, b.next) && FreshFutures(b.history)
  }

  lemma {:induction false} BooksAreKept(commands: seq<Command>)
    ensures BookKept(BookOf(commands))
  {
    if commands != [] {
      BooksAreKept(commands[..|commands| - 1]);
      OneNoteKept(BookOf(commands[..|commands| - 1]), commands[|commands| - 1]);
    } else {
      NothingQueued();
    }
  }

  lemma OneNoteKept(b: Book, c: Command)
    requires BookKept(b)
    ensures BookKept(Noted(b, c))
  {
    hide FateOf, NumberedBelow, FreshFutures;
    var h := b.history;
    match c
    case Put(key, value, front) =>
      NextIsFresh(h, b.next, key, value);
      HistoryAppend(h, Enqueued(key, value, b.next));
    case Take =>
      if b.waiting != [] && b.taken.None? {
        NoNewFuture(h, b.next, Popped(b.waiting[0]));
        HistoryAppend(h, Popped(b.waiting[0]));
        assert forall k :: k in b.waiting[1..] ==> k in b.waiting;
        assert InHand(h + [Popped(b.waiting[0])]) == Some((b.waiting[0], Latest(h, b.waiting[0]).value));
      }
    case End(ok) =>
      if b.taken.Some? {
        NoNewFuture(h, b.next, Finished(b.taken.value, ok));
        HistoryAppend(h, Finished(b.taken.value, ok));
      }
    case GiveUp(f) =>
      if f < b.next {
        NoNewFuture(h, b.next, Abandoned(f));
        HistoryAppend(h, Abandoned(f));
      }
  }

  lemma BookAppend(commands: seq<Command>, c: Command)
    ensures BookOf(commands + [c]) == Noted(BookOf(commands), c)
  {
    assert (commands + [c])[..|commands|] == commands;
  }

  /** While the worker has a task, callers may come and go: the task stays in hand, and whoever waits for
      it and does not give up goes on waiting. */
  lemma {:induction false} WhileTaken(commands: seq<Command>, others: seq<Command>, f: Future)
    requires BookOf(commands).taken.Some? && forall c :: c in others ==> !c.End?
    ensures var b, r := BookOf(commands), BookOf(commands + others);
            && r.taken == b.taken && InHand(r.history) == InHand(b.history)
            && (forall k :: Written(r.history, k) == Written(b.history, k))
            && (FateOf(b.history, f).Taken? && GiveUp(f) !in others ==> FateOf(r.history, f) == FateOf(b.history, f))
  {
    hide NumberedBelow, FreshFutures, BookKept;
    if others == [] {
      assert commands + others == commands;
    } else {
      var init, last := others[..|others| - 1], others[|others| - 1];
      assert last in others && forall c :: c in init ==> c in others;
      WhileTaken(commands, init, f);
      BooksAreKept(commands + init);
      assert commands + others == (commands + init) + [last];
      BookAppend(commands + init, last);
      StillTaken(BookOf(commands + init), last, f);
    }
  }

  lemma StillTaken(b: Book, c: Command, f: Future)
    requires BookKept(b) && b.taken.Some? && !c.End?
    ensures var r := Noted(b, c);
            && r.taken == b.taken && InHand(r.history) == InHand(b.history)
            && (forall k :: Written(r.history, k) == Written(b.history, k))
            && (FateOf(b.history, f).Taken? && c != GiveUp(f) ==> FateOf(r.history, f) == FateOf(b.history, f))
  {
    var r := Noted(b, c);
    if r.history != b.history {
      HistoryAppend(b.history, r.history[|b.history|]);
      assert r.history == b.history + [r.history[|b.history|]];
    }
  }

  /** The worker takes the first task waiting and, whatever callers do meanwhile, ends it: the task has the
      value queued last before it was taken; on success, and only then, this is what the key shows as
      written; and every caller that waited for it and did not give up is told just that. */
  lemma TakenThenEnded(commands: seq<Command>, others: seq<Command>, ok: bool, f: Future)
    requires BookOf(commands).taken.None? && BookOf(commands).waiting != []
    requires forall c :: c in others ==> !c.End?
    ensures var b, r := BookOf(commands), BookOf(commands + [Take] + others + [End(ok)]);
            var key := b.waiting[0];
            && r.taken.None? && Latest(b.history, key).Some?
            && Written(r.history, key) == (if ok then Latest(b.history, key) else Written(b.history, key))
            && (forall k :: k != key ==> Written(r.history, k) == Written(b.history, k))
            && (FateOf(b.history, f) == Waiting(key) && GiveUp(f) !in others ==> FateOf(r.history, f) == Settled(Latest(b.history, key).value, ok))
  {
    var b := BookOf(commands);
    BooksAreKept(commands);
    hide NumberedBelow, FreshFutures;
    BookAppend(commands, Take);
    HistoryAppend(b.history, Popped(b.waiting[0]));
    WhileTaken(commands + [Take], others, f);
    BookAppend(commands + [Take] + others, End(ok));
    var h := BookOf(commands + [Take] + others).history;
    HistoryAppend(h, Finished(b.waiting[0], ok));
    hide BookOf;
  }

  /** A caller that gives up while its task waits or is under way is dropped. */
  lemma GivenUp(commands: seq<Command>, f: Future)
    ensures var before, after := FateOf(BookOf(commands).history, f), FateOf(BookOf(commands + [GiveUp(f)]).history, f);
            after == if before.Waiting? || before.Taken? then Dropped else before
  {
    BooksAreKept(commands);
    BookAppend(commands, GiveUp(f));
    HistoryAppend(BookOf(commands).history, Abandoned(f));
  }

  /** Any run of callers and the one worker: what the queue holds, what its callers are told and what
      the platform shows is what the commands say. */
  method Run(commands: seq<Command>)
    returns (queueList: seq<Key>, queueMap: map<Key, Entry>, flight: Option<Flight>, done: map<Future, Resolution>, world: map<Key, Value>)
    ensures var book := BookOf(commands);
            && queueList == book.waiting && queueMap.Keys == set k | k in book.waiting
            && (if flight.Some? then Some(flight.value.key) else None) == book.taken
            && MeaningKept(book.history, queueMap, flight, world)
            && FuturesKept(book.history, queueMap, flight, done)
            && EffectsKept(book.history, flight, world)
            && FreshFutures(book.history)
  {
    hide FateOf, Latest, LastFailed, MeaningKept, FuturesKept, EffectsKept, ListsKeys, FreshFutures, InHand, Queue.Valid;
    var queue := new Queue();
    var next := 0;
    ghost var h := [];
    NothingQueued();
    for n := 0 to |commands|
      invariant queue.Valid() && fresh(queue) && queue.history == h
      invariant FreshFutures(h) && NumberedBelow(h, next)
      invariant BookOf(commands[..n]) == Book(queue.queueList, if queue.flight.Some? then Some(queue.flight.value.key) else None, next, h)
    {
      assert commands[..n + 1][..n] == commands[..n];
      queue.KeysAreListed();
      match commands[n]
      case Put(key, value, front) =>
        NextIsFresh(h, next, key, value);
        queue.Enqueue(key, value, next, front);
        h := h + [Enqueued(key, value, next)];
        next := next + 1;
      case Take =>
        if queue.queueList != [] && queue.flight.None? {
          var key := queue.Pop();
          NoNewFuture(h, next, Popped(key));
          h := h + [Popped(key)];
        }
      case End(ok) =>
        if queue.flight.Some? {
          var key := queue.flight.value.key;
          queue.Finish(ok);
          NoNewFuture(h, next, Finished(key, ok));
          h := h + [Finished(key, ok)];
        }
      case GiveUp(f) =>
        if f < next {
          NumberedIsKnown(h, next, f);
          queue.Abandon(f);
          NoNewFuture(h, next, Abandoned(f));
          h := h + [Abandoned(f)];
        }
    }
    assert commands[..|commands|] == commands;
    queue.KeysAreListed();
    queueList, queueMap, flight, done, world := queue.queueList, queue.queueMap, queue.flight, queue.done, queue.world;
  }

  /** The futures handed out so far are exactly the numbers below `next`. */
  ghost predicate NumberedBelow(h: seq<Op>, next: nat) {
    forall f: Future :: FateOf(h, f).Unknown? <==> f >= next
  }

  lemma NothingQueued()
    ensures FreshFutures([]) && NumberedBelow([], 0)
  {
  }

  lemma NumberedIsKnown(h: seq<Op>, next: nat, f: Future)
    requires NumberedBelow(h, next) && f < next
    ensures !FateOf(h, f).Unknown?
  {
  }

  lemma NextIsFresh(h: seq<Op>, next: nat, key: Key, value: Value)
    requires FreshFutures(h) && NumberedBelow(h, next)
    ensures FateOf(h, next).Unknown?
    ensures FreshFutures(h + [Enqueued(key, value, next)]) && NumberedBelow(h + [Enqueued(key, value, next)], next + 1)
  {
    UnknownIsUnused(h, next);
    HistoryAppend(h, Enqueued(key, value, next));
  }

  lemma NoNewFuture(h: seq<Op>, next: nat, op: Op)
    requires FreshFutures(h) && NumberedBelow(h, next) && !op.Enqueued?
    ensures FreshFutures(h + [op]) && NumberedBelow(h + [op], next)
  {
    HistoryAppend(h, op);
  }
}
