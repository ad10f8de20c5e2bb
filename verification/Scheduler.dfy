/** The per-tree scheduler: a queue, a busy flag and tasks that hand over to each other. Every method
    of `Scheduler` is one region that the source runs without interleaving (under the tree's lock,
    or between two awaits of a task). */
module TreeScheduler {
  import opened Wrappers

  /** Message ids: opaque and never empty (the source reads an empty id as no id). */
  type Id(==, !new)

  // ---------------------------------------------------------------- the queue

  function Without(s: seq<Id>, gone: set<Id>): seq<Id> {
    if s == [] then []
    else Without(s[..|s| - 1], gone) + (if s[|s| - 1] in gone then [] else [s[|s| - 1]])
  }

  function Ids(s: seq<Id>): set<Id> {
    set x | x in s
  }

  predicate NoDup(s: seq<Id>) {
    forall i, j :: 0 <= i < j < |s| ==> s[i] != s[j]
  }

  /** A FIFO of distinct ids, with a set beside it to look ids up. */
  class SnapshotQueue {
    var deque: seq<Id>
    var ids: set<Id>

    predicate Valid()
      reads this
    {
      NoDup(deque) && ids == Ids(deque)
    }

    constructor ()
      ensures Valid() && deque == []
    {
      deque, ids := [], {};
    }

    /** An id that is already waiting is added again, and then the queue is no longer one of distinct ids. */
    method Put(item: Id)
      requires Valid()
      modifies this
      ensures deque == old(deque) + [item] && ids == old(ids) + {item}
      ensures Valid() <==> item !in old(deque)
    {
      ghost var n := |deque|;
      deque := deque + [item];
      ids := ids + {item};
      assert deque[n] == item && forall i :: 0 <= i < n ==> deque[i] == old(deque)[i];
    }

    /** None when the queue is empty. */
    method Get() returns (item: Option<Id>)
      requires Valid()
      modifies this
      ensures Valid()
      ensures old(deque) == [] ==> item == None && deque == []
      ensures old(deque) != [] ==> item == Some(old(deque)[0]) && deque == old(deque)[1..]
    {
      if deque == [] {
        return None;
      }
      item := Some(deque[0]);
      ids := ids - {deque[0]};
      deque := deque[1..];
    }

    method RemoveIfPresent(item: Id) returns (removed: bool)
      requires Valid()
      modifies this
      ensures Valid() && removed == (item in old(deque)) && deque == Without(old(deque), {item})
    {
      WithoutFacts(deque, {item});
      WithoutNoDup(deque, {item});
      if item !in ids {
        return false;
      }
      ids := ids - {item};
      deque := Filtered(deque, item);
      removed := true;
    }
  }

  method Filtered(s: seq<Id>, item: Id) returns (kept: seq<Id>)
    ensures kept == Without(s, {item})
  {
    kept := [];
    for n := 0 to |s|
      invariant kept == Without(s[..n], {item})
    {
      assert s[..n + 1][..n] == s[..n];
      if s[n] != item {
        kept := kept + [s[n]];
      }
    }
    assert s[..|s|] == s;
  }

  lemma {:induction false} WithoutFacts(s: seq<Id>, gone: set<Id>)
    ensures forall x :: x in Without(s, gone) <==> x in s && x !in gone
    ensures (forall x :: x in s ==> x !in gone) ==> Without(s, gone) == s
    ensures (forall x :: x in s ==> x in gone) ==> Without(s, gone) == []
  {
    if s != [] {
      WithoutFacts(s[..|s| - 1], gone);
      assert s == s[..|s| - 1] + [s[|s| - 1]];
    }
  }

  lemma {:induction false} WithoutNoDup(s: seq<Id>, gone: set<Id>)
    requires NoDup(s)
    ensures NoDup(Without(s, gone))
  {
    if s != [] {
      var init, last := s[..|s| - 1], s[|s| - 1];
      assert last !in init;
      WithoutNoDup(init, gone);
      WithoutFacts(init, gone);
    }
  }

  lemma WithoutNext(s: seq<Id>, x: Id, gone: set<Id>)
    ensures Without(s + [x], gone) == Without(s, gone) + if x in gone then [] else [x]
  {
    assert (s + [x])[..|s|] == s;
  }

  lemma {:induction false} WithoutConcat(a: seq<Id>, b: seq<Id>, gone: set<Id>)
    ensures Without(a + b, gone) == Without(a, gone) + Without(b, gone)
  {
    if b == [] {
      assert a + b == a;
    } else {
      var init, last := b[..|b| - 1], b[|b| - 1];
      WithoutConcat(a, init, gone);
      WithoutNext(a + init, last, gone);
      WithoutNext(init, last, gone);
      hide Without;
      assert b == init + [last] && a + b == (a + init) + [last];
    }
  }

  lemma {:induction false} WithoutTwice(s: seq<Id>, a: set<Id>, b: set<Id>)
    ensures Without(Without(s, a), b) == Without(s, a + b)
  {
    if s != [] {
      var init, last := s[..|s| - 1], s[|s| - 1];
      WithoutTwice(init, a, b);
      if last in a {
        assert Without(s, a) == Without(init, a);
      } else {
        WithoutNext(Without(init, a), last, b);
        assert Without(s, a) == Without(init, a) + [last];
      }
    }
  }

  // ---------------------------------------------------------------- tasks

  /** Created: not yet run. Running: in the message handler. Ending: handler over, before the current
      node is cleared. Handing: about to take the next node. Over: has done so. Dead: cancelled
      before it could. */
  datatype Phase = Created | Running | Ending | Handing | Over | Dead
  datatype Task = Task(node: Id, phase: Phase, cancelled: bool)

  /** The task has not handed over yet. */
  predicate Live(t: Task) {
    t.phase != Over && t.phase != Dead
  }

  /** The current task has not handed over yet. */
  predicate Working(tasks: seq<Task>, current: Option<nat>) {
    current.Some? && current.value < |tasks| && Live(tasks[current.value])
  }

  /** No task but the current one is before its hand-over. */
  predicate Alone(tasks: seq<Task>, current: Option<nat>) {
    && (current.Some? ==> current.value < |tasks|)
    && forall i :: 0 <= i < |tasks| && Live(tasks[i]) ==> current == Some(i)
  }

  /** Tasks may have been asked to stop in between, and nothing else. */
  predicate OnlyAsked(before: seq<Task>, after: seq<Task>) {
    |before| == |after| && forall i :: 0 <= i < |after| ==> after[i] == before[i].(cancelled := after[i].cancelled)
  }

  /** The current task, which is the node's own and still before its hand-over, was asked to stop. */
  predicate Asked(before: seq<Task>, after: seq<Task>, current: Option<nat>, node: Id) {
    && Working(before, current) && before[current.value].node == node
    && after == before[current.value := before[current.value].(cancelled := true)]
  }

  /** The current task, if there is one, is asked to stop, and no other. */
  predicate StopsCurrent(before: seq<Task>, after: seq<Task>, current: Option<nat>) {
    && |after| == |before|
    && forall i :: 0 <= i < |after| ==> after[i] == if current == Some(i) then before[i].(cancelled := true) else before[i]
  }

  /** The nodes of a branch that are neither settled nor gone. */
  function Active(branch: seq<(Id, bool)>): set<Id> {
    if branch == [] then {}
    else Active(branch[..|branch| - 1]) + OneActive(branch[|branch| - 1])
  }

  function OneActive(b: (Id, bool)): set<Id> {
    if b.1 then {b.0} else {}
  }

  lemma OnlyAskedAgain(a: seq<Task>, b: seq<Task>, c: seq<Task>)
    requires OnlyAsked(a, b) && OnlyAsked(b, c)
    ensures OnlyAsked(a, c)
  {
  }

  function Nodes(tasks: seq<Task>): seq<Id> {
    if tasks == [] then [] else Nodes(tasks[..|tasks| - 1]) + [tasks[|tasks| - 1].node]
  }

  /** What has happened to the nodes: in order of arrival; taken out of the queue again; in order of
      dispatch; gone from the tree when dispatched; and whether the hand-over chain is cut. */
  datatype Log = Log(arrived: seq<Id>, dropped: set<Id>, dispatched: seq<Id>, missing: set<Id>, lost: bool)

  /** Nodes leave the queue in order of arrival, those dropped from it left out, and each one
      dispatched gets a task unless the tree no longer holds it. */
  ghost predicate InOrder(deque: seq<Id>, tasks: seq<Task>, log: Log) {
    && NoDup(log.arrived) && (forall x :: x in log.dropped ==> x in log.arrived)
    && Without(log.arrived, log.dropped) == log.dispatched + deque
    && (forall x :: x in log.missing ==> x in log.dispatched)
    && Nodes(tasks) == Without(log.dispatched, log.missing)
  }

  /** The tree is busy exactly while a task is before its hand-over or the chain is cut, never both;
      an idle tree has an empty queue; the current node is the node of the current task. */
  ghost predicate Exclusive(deque: seq<Id>, busy: bool, node: Option<Id>, tasks: seq<Task>, current: Option<nat>, lost: bool) {
    && Alone(tasks, current)
    && (busy <==> Working(tasks, current) || lost)
    && !(Working(tasks, current) && lost)
    && (!busy ==> deque == [])
    && (node.Some? && !lost ==> Working(tasks, current) && tasks[current.value].node == node.value)
  }

  /** All there is to a tree's scheduler. */
  datatype State = State(deque: seq<Id>, busy: bool, node: Option<Id>, current: Option<nat>, tasks: seq<Task>, log: Log)

  function Fresh(): State {
    State([], false, None, None, [], Log([], {}, [], {}, false))
  }

  /** The node becomes the current one, with a task of its own unless the tree no longer holds it. */
  function Dispatched(s: State, node: Id, present: bool): State {
    var log := s.log.(dispatched := s.log.dispatched + [node], lost := !present,
                      missing := if present then s.log.missing else s.log.missing + {node});
    if present then s.(busy := true, node := Some(node), current := Some(|s.tasks|), tasks := s.tasks + [Task(node, Created, false)], log := log)
    else s.(busy := true, node := Some(node), log := log)
  }

  function Enqueued(s: State, node: Id, present: bool): State {
    var arrived := s.(log := s.log.(arrived := s.log.arrived + [node]));
    if s.busy then arrived.(deque := s.deque + [node]) else Dispatched(arrived, node, present)
  }

  function InPhase(s: State, t: nat, phase: Phase): State
    requires t < |s.tasks|
  {
    s.(tasks := s.tasks[t := s.tasks[t].(phase := phase)])
  }

  function HandedOver(s: State, t: nat, present: bool): State
    requires t < |s.tasks|
  {
    var over := InPhase(s, t, Over);
    if s.deque == [] then over.(busy := false, node := None) else Dispatched(over.(deque := s.deque[1..]), s.deque[0], present)
  }

  function TaskAsked(s: State): State {
    if s.current.Some? && s.current.value < |s.tasks|
    then s.(tasks := s.tasks[s.current.value := s.tasks[s.current.value].(cancelled := true)]) else s
  }

  function Unqueued(s: State, node: Id): State {
    s.(deque := Without(s.deque, {node}),
       log := if node in s.deque then s.log.(dropped := s.log.dropped + {node}) else s.log)
  }

  function NodeCancelled(s: State, node: Id, active: bool): State {
    if !active then s else Unqueued(if s.node == Some(node) then TaskAsked(s) else s, node)
  }

  function BranchCancelled(s: State, branch: seq<(Id, bool)>): State {
    if branch == [] then s
    else
      var before, (node, active) := BranchCancelled(s, branch[..|branch| - 1]), branch[|branch| - 1];
      if !active then before else if before.node == Some(node) then TaskAsked(before) else Unqueued(before, node)
  }

  function TreeCancelled(s: State): State {
    TaskAsked(s).(deque := [], busy := false, node := None, log := s.log.(dropped := s.log.dropped + Ids(s.deque), lost := false))
  }

  lemma NoneActive(branch: seq<(Id, bool)>, s: seq<Id>, tasks: seq<Task>, state: State)
    ensures Without(s, Active(branch[..0])) == s && OnlyAsked(tasks, tasks)
    ensures Active(branch[..0]) == {} && BranchCancelled(state, branch[..0]) == state
  {
    WithoutFacts(s, {});
  }

  lemma ActiveNext(branch: seq<(Id, bool)>, n: nat, s: seq<Id>, state: State, dropped: set<Id>)
    requires n < |branch|
    ensures Without(Without(s, Active(branch[..n])), OneActive(branch[n])) == Without(s, Active(branch[..n + 1]))
    ensures OneActive(branch[n]) == if branch[n].1 then {branch[n].0} else {}
    ensures !branch[n].1 ==> Active(branch[..n + 1]) == Active(branch[..n])
    ensures branch[n].1 ==>
              dropped + Active(branch[..n + 1]) * Ids(s)
              == dropped + Active(branch[..n]) * Ids(s) + if branch[n].0 in Without(s, Active(branch[..n])) then {branch[n].0} else {}
    ensures var before := BranchCancelled(state, branch[..n]);
            BranchCancelled(state, branch[..n + 1]) ==
            if !branch[n].1 then before
            else if before.node == Some(branch[n].0) then TaskAsked(before) else Unqueued(before, branch[n].0)
  {
    assert branch[..n + 1][..n] == branch[..n];
    WithoutFacts(s, Active(branch[..n]));
    WithoutTwice(s, Active(branch[..n]), OneActive(branch[n]));
    hide Without;
  }

  /** The chain of tasks of one tree. The tree's dictionary of nodes is not part of this class: where
      the source looks a node up, the method takes the answer. */
  class Scheduler {
    const queue: SnapshotQueue
    var isProcessing: bool
    var currentNode: Option<Id>
    var currentTask: Option<nat>
    var tasks: seq<Task>
    ghost var log: Log

    ghost function Value(): State
      reads this, queue
    {
      State(queue.deque, isProcessing, currentNode, currentTask, tasks, log)
    }

    ghost predicate Wired()
      reads this, queue
    {
      && queue.Valid() && InOrder(queue.deque, tasks, log)
      && (currentTask.Some? ==> currentTask.value < |tasks|)
      && (currentNode.Some? ==> currentNode.value in log.dispatched)
    }

    ghost predicate Valid()
      reads this, queue
    {
      Wired() && Exclusive(queue.deque, isProcessing, currentNode, tasks, currentTask, log.lost)
    }

    constructor ()
      ensures Valid() && fresh(queue) && Value() == Fresh()
    {
      queue := new SnapshotQueue();
      isProcessing, currentNode, currentTask, tasks := false, None, None, [];
      log := Log([], {}, [], {}, false);
    }

    lemma Promises()
      requires Valid()
      ensures forall i, j :: 0 <= i < j < |tasks| ==> !(Live(tasks[i]) && Live(tasks[j]))
      ensures (exists i :: 0 <= i < |tasks| && Live(tasks[i])) ==> isProcessing
      ensures !isProcessing ==> queue.deque == []
      ensures Without(log.arrived, log.dropped) == log.dispatched + queue.deque
      ensures Nodes(tasks) == Without(log.dispatched, log.missing)
    {
    }

    lemma IdleIsEmpty()
      requires Valid()
      ensures !isProcessing ==> queue.deque == []
      ensures log.lost ==> isProcessing && forall i :: 0 <= i < |tasks| ==> !Live(tasks[i])
    {
    }

    /** A node becomes the current one; it gets a task unless it has been removed from the tree. */
    method Dispatch(node: Id, present: bool)
      modifies `isProcessing, `currentNode, `currentTask, `tasks, `log
      ensures isProcessing && currentNode == Some(node)
      ensures tasks == if present then old(tasks) + [Task(node, Created, false)] else old(tasks)
      ensures currentTask == if present then Some(|old(tasks)|) else old(currentTask)
      ensures log == old(log).(dispatched := old(log).dispatched + [node], lost := !present,
                               missing := if present then old(log).missing else old(log).missing + {node})
      ensures Value() == Dispatched(old(Value()), node, present)
    {
      isProcessing := true;
      currentNode := Some(node);
      if present {
        tasks := tasks + [Task(node, Created, false)];
        currentTask := Some(|tasks| - 1);
      }
      log := log.(dispatched := log.dispatched + [node], lost := !present,
                  missing := if present then log.missing else log.missing + {node});
    }

    /** True if the node was queued, false if it was dispatched at once. */
    method EnqueueAndStart(node: Id, present: bool) returns (queued: bool)
      requires Wired() && node !in log.arrived && (!isProcessing ==> queue.deque == [])
      modifies `isProcessing, `currentNode, `currentTask, `tasks, `log, queue
      ensures Wired() && queued == old(isProcessing) && isProcessing
      ensures old(Valid()) ==> Valid()
      ensures Value() == Enqueued(old(Value()), node, present)
      ensures log.arrived == old(log).arrived + [node] && log.dropped == old(log).dropped
      ensures queued ==> queue.deque == old(queue.deque) + [node] && tasks == old(tasks) && currentNode == old(currentNode)
                         && currentTask == old(currentTask) && log.dispatched == old(log).dispatched && log.lost == old(log).lost
      ensures !queued ==> queue.deque == [] && currentNode == Some(node) && log.dispatched == old(log).dispatched + [node]
                          && tasks == (if present then old(tasks) + [Task(node, Created, false)] else old(tasks))
                          && (present ==> currentTask == Some(|old(tasks)|)) && log.lost == !present
    {
      NeverSeen(queue.deque, tasks, log, node);
      ArrivalKeepsOrder(queue.deque, tasks, log, node);
      log := log.(arrived := log.arrived + [node]);
      if isProcessing {
        queue.Put(node);
        return true;
      }
      DispatchKeepsOrder([], tasks, log, node, present);
      if Alone(tasks, currentTask) && !Working(tasks, currentTask) {
        DispatchIsExclusive([], tasks, currentTask, node, present);
      }
      Dispatch(node, present);
      return false;
    }

    /** A task moves on: its handler starts, ends, or is skipped, or the current node is cleared. */
    method Advance(t: nat, phase: Phase)
      requires Valid() && t < |tasks| && Live(tasks[t]) && Live(Task(tasks[t].node, phase, false))
      modifies `tasks
      ensures Valid() && Value() == InPhase(old(Value()), t, phase)
    {
      SameNodes(tasks, t, tasks[t].(phase := phase));
      tasks := tasks[t := tasks[t].(phase := phase)];
    }

    /** A task runs for the first time; a node already in error skips its handler. */
    method StartTask(t: nat, errored: bool)
      requires Valid() && t < |tasks| && tasks[t].phase == Created && !tasks[t].cancelled
      modifies `tasks
      ensures Valid() && Value() == InPhase(old(Value()), t, if errored then Handing else Running)
    {
      Advance(t, if errored then Handing else Running);
    }

    /** The handler returns, fails or is cancelled. */
    method EndHandler(t: nat)
      requires Valid() && t < |tasks| && tasks[t].phase == Running
      modifies `tasks
      ensures Valid() && Value() == InPhase(old(Value()), t, Ending)
    {
      Advance(t, Ending);
    }

    method ClearCurrentNode(t: nat)
      requires Valid() && t < |tasks| && tasks[t].phase == Ending
      modifies `tasks, `currentNode
      ensures Valid() && Value() == InPhase(old(Value()), t, Handing).(node := None)
    {
      currentNode := None;
      Advance(t, Handing);
    }

    /** The hand-over: the next node is dispatched, or the tree becomes free. */
    method ProcessNext(t: nat, present: bool)
      requires Valid() && t < |tasks| && tasks[t].phase == Handing
      modifies this, queue
      ensures Value() == HandedOver(old(Value()), t, present)
      ensures Valid() && |tasks| >= |old(tasks)| && tasks[..|old(tasks)|] == old(tasks)[t := old(tasks)[t].(phase := Over)]
      ensures old(queue.deque) == [] ==> !isProcessing && queue.deque == [] && currentNode.None? && log == old(log)
      ensures old(queue.deque) != [] ==>
                && isProcessing && queue.deque == old(queue.deque)[1..] && currentNode == Some(old(queue.deque)[0])
                && log.dispatched == old(log).dispatched + [old(queue.deque)[0]] && log.lost == !present
                && tasks[|old(tasks)|..] == if present then [Task(old(queue.deque)[0], Created, false)] else []
      ensures log.arrived == old(log).arrived && log.dropped == old(log).dropped
    {
      hide InOrder, NoDup, Nodes, Without, Ids;
      ghost var waiting := queue.deque;
      SameOrder(queue.deque, tasks, log, t, tasks[t].(phase := Over));
      var next := queue.Get();
      tasks := tasks[t := tasks[t].(phase := Over)];
      if next.None? {
        isProcessing := false;
        currentNode := None;
        return;
      }
      assert waiting == [next.value] + queue.deque;
      DispatchKeepsOrder(queue.deque, tasks, log, next.value, present);
      DispatchIsExclusive(queue.deque, tasks, currentTask, next.value, present);
      Dispatch(next.value, present);
    }

    /** A cancelled task that is not in its handler never reaches its hand-over: the chain is cut. */
    method Die(t: nat)
      requires Valid() && t < |tasks| && tasks[t].cancelled && tasks[t].phase in {Created, Ending, Handing}
      modifies `tasks, `log
      ensures Valid() && isProcessing && !Working(tasks, currentTask)
      ensures Value() == InPhase(old(Value()), t, Dead).(log := old(log).(lost := true))
    {
      SameNodes(tasks, t, tasks[t].(phase := Dead));
      tasks := tasks[t := tasks[t].(phase := Dead)];
      log := log.(lost := true);
    }

    /** The current task is asked to stop; whether it has already finished makes no difference here. */
    method CancelCurrentTask()
      requires Wired()
      modifies `tasks
      ensures Wired() && (old(Valid()) ==> Valid()) && OnlyAsked(old(tasks), tasks)
      ensures Value() == TaskAsked(old(Value()))
      ensures tasks == if currentTask.None? then old(tasks)
                       else old(tasks)[currentTask.value := old(tasks)[currentTask.value].(cancelled := true)]
    {
      if currentTask.Some? {
        var t := currentTask.value;
        SameNodes(tasks, t, tasks[t].(cancelled := true));
        tasks := tasks[t := tasks[t].(cancelled := true)];
      }
    }

    /** One node is cancelled, unless it is settled or gone: its task if it is the current node, its
        place in the queue in any case. The only task that can be asked to stop is the node's own. */
    method CancelNode(node: Id, active: bool)
      requires Valid()
      modifies `tasks, `log, queue
      ensures Value() == NodeCancelled(old(Value()), node, active)
      ensures Valid() && log.lost == old(log).lost && OnlyAsked(old(tasks), tasks)
      ensures queue.deque == Without(old(queue.deque), OneActive((node, active)))
      ensures log.arrived == old(log).arrived && log.dispatched == old(log).dispatched && log.missing == old(log).missing
      ensures log.dropped == if active && node in old(queue.deque) then old(log).dropped + {node} else old(log).dropped
      ensures !(active && currentNode == Some(node)) ==> tasks == old(tasks)
      ensures active && currentNode == Some(node) && !log.lost ==> Asked(old(tasks), tasks, currentTask, node)
    {
      if !active {
        WithoutFacts(queue.deque, {});
        return;
      }
      assert OnlyAsked(tasks, tasks);
      hide Without, InOrder, Nodes, Alone, NoDup, OnlyAsked;
      if currentNode == Some(node) {
        CancelCurrentTask();
      }
      Unqueue(node);
    }

    method Unqueue(node: Id)
      requires Valid()
      modifies `log, queue
      ensures Value() == Unqueued(old(Value()), node)
      ensures Valid() && queue.deque == Without(old(queue.deque), {node})
      ensures log == old(log).(dropped := log.dropped)
      ensures log.dropped == if node in old(queue.deque) then old(log).dropped + {node} else old(log).dropped
    {
      UnqueueKeepsOrder(queue.deque, tasks, log, node);
      WithoutFacts(queue.deque, {node});
      hide Without, InOrder, NoDup, Ids, Nodes, Alone, Working;
      var removed := queue.RemoveIfPresent(node);
      if removed {
        log := log.(dropped := log.dropped + {node});
      }
    }

    /** The same for a node of a branch: either its task or its place in the queue. */
    method CancelInBranch(node: Id)
      requires Valid()
      modifies `tasks, `log, queue
      ensures Value() == if currentNode == Some(node) then TaskAsked(old(Value())) else Unqueued(old(Value()), node)
      ensures Valid() && log.lost == old(log).lost && OnlyAsked(old(tasks), tasks)
      ensures queue.deque == Without(old(queue.deque), {node})
      ensures log.arrived == old(log).arrived && log.dispatched == old(log).dispatched && log.missing == old(log).missing
      ensures log.dropped == if node in old(queue.deque) then old(log).dropped + {node} else old(log).dropped
      ensures currentNode != Some(node) ==> tasks == old(tasks)
      ensures currentNode == Some(node) && !log.lost ==> Asked(old(tasks), tasks, currentTask, node)
    {
      assert OnlyAsked(tasks, tasks);
      if currentNode == Some(node) {
        CurrentIsNotWaiting(node);
        hide Without, InOrder, Nodes, Alone, NoDup, OnlyAsked;
        CancelCurrentTask();
      } else {
        hide Without, InOrder, Nodes, Alone, NoDup, OnlyAsked;
        Unqueue(node);
      }
    }

    /** The current node has left the queue. */
    lemma CurrentIsNotWaiting(node: Id)
      requires Wired() && currentNode == Some(node)
      ensures node !in queue.deque && Without(queue.deque, {node}) == queue.deque
    {
      Disjoint(log, queue.deque);
      WithoutFacts(queue.deque, {node});
    }

    /** The nodes of a branch are cancelled one by one: the queue keeps the others, in order. */
    method CancelBranch(branch: seq<(Id, bool)>)
      requires Valid()
      modifies `tasks, `log, queue
      ensures Valid() && log.lost == old(log).lost && log.arrived == old(log).arrived && log.dispatched == old(log).dispatched
      ensures queue.deque == Without(old(queue.deque), Active(branch))
      ensures OnlyAsked(old(tasks), tasks)
      ensures if currentNode.Some? && currentNode.value in Active(branch) then StopsCurrent(old(tasks), tasks, currentTask) else tasks == old(tasks)
      ensures Value() == BranchCancelled(old(Value()), branch)
      ensures log.dropped == old(log).dropped + Active(branch) * Ids(old(queue.deque))
    {
      ghost var was, start := queue.deque, Value();
      NoneActive(branch, was, tasks, start);
      BranchAsks(start, branch);
      assert start.node == currentNode && start.current == currentTask && start.tasks == tasks;
      hide *;
      for n := 0 to |branch|
        invariant Valid() && log.lost == old(log).lost && log.arrived == old(log).arrived && log.dispatched == old(log).dispatched
        invariant queue.deque == Without(was, Active(branch[..n])) && OnlyAsked(old(tasks), tasks)
        invariant currentNode == old(currentNode) && currentTask == old(currentTask) && isProcessing == old(isProcessing)
        invariant Value() == BranchCancelled(start, branch[..n])
        invariant log.dropped == old(log).dropped + Active(branch[..n]) * Ids(was)
      {
        ActiveNext(branch, n, was, start, old(log).dropped);
        ghost var before := tasks;
        if branch[n].1 {
          ghost var now := Value();
          ValueIs(now.node, now.deque, now.tasks);
          CancelInBranch(branch[n].0);
          OnlyAskedAgain(old(tasks), before, tasks);
        }
      }
      assert branch[..|branch|] == branch;
      ghost var last := Value();
      ValueIs(last.node, last.deque, last.tasks);
    }

    lemma ValueIs(node: Option<Id>, deque: seq<Id>, now: seq<Task>)
      requires node == Value().node && deque == Value().deque && now == Value().tasks
      ensures node == currentNode && deque == queue.deque && now == tasks
    {
    }

    /** The whole tree is cancelled: the queue is drained and the busy flag dropped. What the tree
        promises survives exactly when no task was before its hand-over; a cut chain is mended. */
    method CancelTree() returns (drained: seq<Id>)
      requires Valid()
      modifies `isProcessing, `currentNode, `tasks, `log, queue
      ensures Wired() && queue.deque == [] && !isProcessing && !log.lost && currentNode.None?
      ensures Valid() <==> !old(Working(tasks, currentTask))
      ensures log == old(log).(dropped := old(log).dropped + Ids(old(queue.deque)), lost := false)
      ensures OnlyAsked(old(tasks), tasks) && drained == old(queue.deque)
      ensures StopsCurrent(old(tasks), tasks, currentTask)
      ensures old(currentNode).Some? && !old(log).lost ==> Asked(old(tasks), tasks, currentTask, old(currentNode).value)
      ensures Value() == TreeCancelled(old(Value()))
    {
      CancelCurrentTask();
      DropKeepsOrder(queue.deque, tasks, log, Ids(queue.deque));
      WithoutAll(queue.deque);
      log := log.(dropped := log.dropped + Ids(queue.deque), lost := false);
      drained := Drain();
      isProcessing := false;
      currentNode := None;
    }

    method Drain() returns (drained: seq<Id>)
      requires queue.Valid()
      modifies queue
      ensures queue.Valid() && queue.deque == [] && drained == old(queue.deque)
    {
      drained := [];
      var next := queue.Get();
      while next.Some?
        invariant queue.Valid() && (next.None? ==> queue.deque == [])
        invariant drained + (if next.Some? then [next.value] else []) + queue.deque == old(queue.deque)
        decreases |queue.deque|, next.Some?
      {
        drained := drained + [next.value];
        next := queue.Get();
      }
    }
  }

  // ---------------------------------------------------------------- runs

  datatype Step =
    | Arrive(node: Id, present: bool)
    | Start(t: nat, errored: bool)
    | End(t: nat)
    | Clear(t: nat)
    | HandOver(t: nat, present: bool)
    | Perish(t: nat)
    | CancelOne(node: Id, active: bool)
    | CancelMany(branch: seq<(Id, bool)>)
    | CancelAll

  /** The nodes that arrive, each once. */
  function Arrivals(steps: seq<Step>): seq<Id> {
    if steps == [] then []
    else
      var before, last := Arrivals(steps[..|steps| - 1]), steps[|steps| - 1];
      before + if last.Arrive? && last.node !in before then [last.node] else []
  }

  /** The task does what this step needs. */
  predicate Able(s: State, step: Step) {
    match step
    case Arrive(node, _) => node !in s.log.arrived
    case Start(t, _) => t < |s.tasks| && s.tasks[t].phase == Created && !s.tasks[t].cancelled
    case End(t) => t < |s.tasks| && s.tasks[t].phase == Running
    case Clear(t) => t < |s.tasks| && s.tasks[t].phase == Ending
    case HandOver(t, _) => t < |s.tasks| && s.tasks[t].phase == Handing
    case Perish(t) => t < |s.tasks| && s.tasks[t].cancelled && s.tasks[t].phase in {Created, Ending, Handing}
    case CancelOne(_, _) => true
    case CancelMany(_) => true
    case CancelAll => !Working(s.tasks, s.current)
  }

  function Stepped(s: State, step: Step): State
    requires Able(s, step)
  {
    match step
    case Arrive(node, present) => Enqueued(s, node, present)
    case Start(t, errored) => InPhase(s, t, if errored then Handing else Running)
    case End(t) => InPhase(s, t, Ending)
    case Clear(t) => InPhase(s, t, Handing).(node := None)
    case HandOver(t, present) => HandedOver(s, t, present)
    case Perish(t) => InPhase(s, t, Dead).(log := s.log.(lost := true))
    case CancelOne(node, active) => NodeCancelled(s, node, active)
    case CancelMany(branch) => BranchCancelled(s, branch)
    case CancelAll => TreeCancelled(s)
  }

  function Next(s: State, step: Step): State {
    if Able(s, step) then Stepped(s, step) else s
  }

  /** Any interleaving of steps of a fresh tree, with those skipped that the state rules out: a node
      arrives once, a task does what its phase allows, and the whole tree is cancelled only while no
      task is before its hand-over. */
  function Replay(steps: seq<Step>): State {
    if steps == [] then Fresh() else Next(Replay(steps[..|steps| - 1]), steps[|steps| - 1])
  }

  /** The nodes that a run asks to cancel: those named, and all that have arrived when the tree is. */
  function AskedFor(steps: seq<Step>): set<Id> {
    if steps == [] then {}
    else
      var init, last := steps[..|steps| - 1], steps[|steps| - 1];
      AskedFor(init) + match last
                       case CancelOne(node, active) => OneActive((node, active))
                       case CancelMany(branch) => Active(branch)
                       case CancelAll => Ids(Arrivals(init))
                       case _ => {}
  }

  /** More steps from a given state on. */
  function After(s: State, steps: seq<Step>): State {
    if steps == [] then s else Next(After(s, steps[..|steps| - 1]), steps[|steps| - 1])
  }

  lemma {:induction false} ReplayOn(steps: seq<Step>, more: seq<Step>)
    ensures Replay(steps + more) == After(Replay(steps), more)
  {
    if more == [] {
      assert steps + more == steps;
    } else {
      ReplayOn(steps, more[..|more| - 1]);
      assert (steps + more)[..|steps + more| - 1] == steps + more[..|more| - 1];
    }
  }

  /** What a task still has to go through, its hand-over last. */
  function Rest(t: nat, phase: Phase, errored: bool, present: bool): seq<Step> {
    match phase
    case Created => [Start(t, errored)] + if errored then [HandOver(t, present)] else [End(t)] + [Clear(t), HandOver(t, present)]
    case Running => [End(t)] + [Clear(t), HandOver(t, present)]
    case Ending => [Clear(t), HandOver(t, present)]
    case Handing => [HandOver(t, present)]
    case _ => []
  }

  /** Task t has handed over: the first node waiting is dispatched, or the tree is free if none is. */
  ghost predicate HandsOver(s: State, r: State, t: nat, present: bool)
    requires t < |s.tasks|
  {
    && |s.tasks| <= |r.tasks| && r.tasks[..|s.tasks|] == s.tasks[t := s.tasks[t].(phase := Over)]
    && if s.deque == [] then r.deque == [] && !r.busy && r.node.None? && |r.tasks| == |s.tasks| && r.log == s.log
       else
         && r.deque == s.deque[1..] && r.busy && r.node == Some(s.deque[0]) && r.log.dispatched == s.log.dispatched + [s.deque[0]]
         && (present ==> r.tasks[|s.tasks|..] == [Task(s.deque[0], Created, false)] && r.current == Some(|s.tasks|))
  }

  /** Nothing waits in vain: a task that is not cancelled before it runs can always be brought to its hand-over. */
  lemma TasksHandOver(s: State, errored: bool, present: bool)
    requires Working(s.tasks, s.current)
    requires s.tasks[s.current.value].phase == Created ==> !s.tasks[s.current.value].cancelled
    ensures HandsOver(s, After(s, Rest(s.current.value, s.tasks[s.current.value].phase, errored, present)), s.current.value, present)
  {
    var t := s.current.value;
    var phase := s.tasks[t].phase;
    hide After, HandedOver, HandsOver, Brings;
    var next := if phase != Created then phase else if errored then Handing else Running;
    var q := InPhase(s, t, next);
    ToHandOver(q, t, errored, present);
    if phase == Created {
      AfterStep(s, Start(t, errored), Rest(t, next, errored, present));
    } else {
      assert q == s;
    }
    Brought(s, t, next, After(q, Rest(t, next, errored, present)), present);
  }

  /** What is left once task t has handed over, wherever it was and whether or not the current node was cleared. */
  ghost predicate Brings(s: State, r: State, t: nat, present: bool)
    requires t < |s.tasks|
  {
    exists phase :: r == HandedOver(InPhase(s, t, phase), t, present) || r == HandedOver(InPhase(s, t, phase).(node := None), t, present)
  }

  lemma Brought(s: State, t: nat, phase: Phase, r: State, present: bool)
    requires t < |s.tasks| && Brings(InPhase(s, t, phase), r, t, present)
    ensures HandsOver(s, r, t, present)
  {
    hide HandedOver, HandsOver;
    var q := InPhase(s, t, phase);
    var last :| r == HandedOver(InPhase(q, t, last), t, present) || r == HandedOver(InPhase(q, t, last).(node := None), t, present);
    assert InPhase(q, t, last) == InPhase(s, t, last);
    SameHandOver(s, t, last, present);
  }

  lemma SameHandOver(s: State, t: nat, phase: Phase, present: bool)
    requires t < |s.tasks|
    ensures HandsOver(s, HandedOver(InPhase(s, t, phase), t, present), t, present)
    ensures HandsOver(s, HandedOver(InPhase(s, t, phase).(node := None), t, present), t, present)
  {
    assert s.tasks[t := s.tasks[t].(phase := phase)][t := s.tasks[t].(phase := Over)] == s.tasks[t := s.tasks[t].(phase := Over)];
  }

  lemma ToHandOver(s: State, t: nat, errored: bool, present: bool)
    requires t < |s.tasks| && s.tasks[t].phase in {Running, Ending, Handing}
    ensures Brings(s, After(s, Rest(t, s.tasks[t].phase, errored, present)), t, present)
  {
    hide HandedOver, After;
    var cleared := InPhase(s, t, Handing).(node := None);
    assert InPhase(s, t, s.tasks[t].phase) == s;
    if s.tasks[t].phase == Handing {
      AfterStep(s, HandOver(t, present), []);
    } else {
      AfterStep(cleared, HandOver(t, present), []);
      if s.tasks[t].phase == Running {
        AfterStep(s, End(t), Rest(t, Ending, errored, present));
        ClearNext(InPhase(s, t, Ending), t, present);
        assert InPhase(InPhase(s, t, Ending), t, Handing) == InPhase(s, t, Handing);
      } else {
        ClearNext(s, t, present);
      }
    }
  }

  lemma ClearNext(s: State, t: nat, present: bool)
    requires t < |s.tasks| && s.tasks[t].phase == Ending
    ensures After(s, [Clear(t), HandOver(t, present)]) == After(InPhase(s, t, Handing).(node := None), [HandOver(t, present)])
  {
    hide After;
    AfterStep(s, Clear(t), [HandOver(t, present)]);
    assert [Clear(t)] + [HandOver(t, present)] == [Clear(t), HandOver(t, present)];
  }

  lemma {:induction false} AfterStep(s: State, step: Step, more: seq<Step>)
    ensures After(s, [step] + more) == After(Next(s, step), more)
    ensures more == [] ==> After(s, [step]) == Next(s, step)
  {
    hide Next;
    if more == [] {
      assert [step] + more == [step] && [step][..0] == [];
    } else {
      AfterStep(s, step, more[..|more| - 1]);
      assert ([step] + more)[..|more|] == [step] + more[..|more| - 1];
    }
  }

  /** Cancelling takes effect: what is cancelled no longer waits; a tree cancelled as a whole is free again. */
  lemma CancelsTakeEffect(s: State, node: Id, branch: seq<(Id, bool)>)
    ensures node !in Next(s, CancelOne(node, true)).deque
    ensures forall x :: x in Next(s, CancelMany(branch)).deque <==> x in s.deque && (x !in Active(branch) || s.node == Some(x))
    ensures var r := Next(s, CancelAll);
            !Working(s.tasks, s.current) ==> r.deque == [] && !r.busy && r.node.None? && !r.log.lost
    ensures forall t: nat, errored :: t < |s.tasks| && s.tasks[t].cancelled && s.tasks[t].phase == Created ==> Next(s, Start(t, errored)) == s
    ensures forall t: nat :: t < |s.tasks| && s.tasks[t].cancelled && s.tasks[t].phase in {Created, Ending, Handing} ==>
              Next(s, Perish(t)).log.lost && Next(s, Perish(t)).tasks == s.tasks[t := s.tasks[t].(phase := Dead)]
  {
    WithoutFacts(s.deque, {node});
    BranchLeaves(s, branch);
    hide Without, Active;
  }

  lemma {:induction false} BranchLeaves(s: State, branch: seq<(Id, bool)>)
    ensures var r := BranchCancelled(s, branch);
            r.node == s.node && forall x :: x in r.deque <==> x in s.deque && (x !in Active(branch) || s.node == Some(x))
  {
    if branch != [] {
      var before := BranchCancelled(s, branch[..|branch| - 1]);
      BranchLeaves(s, branch[..|branch| - 1]);
      WithoutFacts(before.deque, {branch[|branch| - 1].0});
      hide Without;
    }
  }

  /** The current task is asked to stop exactly if its node is in the branch and unsettled. */
  lemma {:induction false} BranchAsks(s: State, branch: seq<(Id, bool)>)
    ensures var r := BranchCancelled(s, branch);
            && r.node == s.node && r.current == s.current
            && if s.node.Some? && s.node.value in Active(branch) then StopsCurrent(s.tasks, r.tasks, s.current) else r.tasks == s.tasks
  {
    if branch != [] {
      BranchAsks(s, branch[..|branch| - 1]);
    }
  }

  /** In every run: the state is what the steps say; at most one task is before its hand-over, the tree
      is busy while one is, an idle tree has no queue; nodes are dispatched in order of arrival, left
      out are only nodes that were to be cancelled, and each gets a task unless it is gone. */
  method Run(steps: seq<Step>) returns (s: Scheduler)
    ensures fresh(s) && s.Valid() && s.Value() == Replay(steps)
    ensures s.log.arrived == Arrivals(steps) && s.log.dropped <= AskedFor(steps)
    ensures forall i, j :: 0 <= i < j < |s.tasks| ==> !(Live(s.tasks[i]) && Live(s.tasks[j]))
    ensures (exists i :: 0 <= i < |s.tasks| && Live(s.tasks[i])) ==> s.isProcessing
    ensures !s.isProcessing ==> s.queue.deque == []
    ensures Without(Arrivals(steps), s.log.dropped) == s.log.dispatched + s.queue.deque
    ensures Nodes(s.tasks) == Without(s.log.dispatched, s.log.missing)
  {
    hide InOrder, Exclusive, Without, NoDup, Ids, Nodes, Next, Fresh;
    s := new Scheduler();
    ReplayNothing();
    for n := 0 to |steps|
      invariant fresh(s) && fresh(s.queue) && s.Valid() && s.Value() == Replay(steps[..n])
    {
      assert steps[..n + 1][..n] == steps[..n];
      DroppedWereAskedFor(steps[..n]);
      if steps[n].Arrive? ==> steps[n].node !in Arrivals(steps[..n]) {
        Take(s, steps[n]);
      } else {
        NotTwice(Replay(steps[..n]), steps[n]);
      }
    }
    assert steps[..|steps|] == steps;
    s.Promises();
    DroppedWereAskedFor(steps);
  }

  lemma NotTwice(s: State, step: Step)
    requires step.Arrive? && step.node in s.log.arrived
    ensures Next(s, step) == s
  {
  }

  lemma ReplayNothing()
    ensures Replay([]) == Fresh()
  {
  }

  /** One step. A chain that was cut stays cut, and nothing is dispatched, until the whole tree is cancelled. */
  method Take(s: Scheduler, step: Step)
    requires s.Valid() && (step.Arrive? ==> step.node !in s.log.arrived)
    modifies s, s.queue
    ensures s.Valid() && s.Value() == Next(old(s.Value()), step)
    ensures old(s.log).lost && step != CancelAll ==>
              s.log.lost && s.isProcessing && |s.tasks| == |old(s.tasks)| && s.log.dispatched == old(s.log).dispatched
  {
    s.IdleIsEmpty();
    hide InOrder, Exclusive, Without, NoDup, Ids, Nodes, Active, Asked, Enqueued, HandedOver, NodeCancelled, BranchCancelled, TreeCancelled;
    match step {
      case Arrive(node, present) =>
        var _ := s.EnqueueAndStart(node, present);
      case Start(_, _) | End(_) | Clear(_) | HandOver(_, _) | Perish(_) => TaskStep(s, step);
      case CancelOne(node, active) => s.CancelNode(node, active);
      case CancelMany(branch) => s.CancelBranch(branch);
      case CancelAll =>
        if !Working(s.tasks, s.currentTask) {
          var _ := s.CancelTree();
        }
    }
  }

  /** One step of a task. */
  method TaskStep(s: Scheduler, step: Step)
    requires s.Valid() && (step.Start? || step.End? || step.Clear? || step.HandOver? || step.Perish?)
    modifies s, s.queue
    ensures s.Valid() && s.Value() == Next(old(s.Value()), step)
    ensures old(s.log).lost ==>
              s.log.lost && s.isProcessing && |s.tasks| == |old(s.tasks)| && s.log.dispatched == old(s.log).dispatched
  {
    s.IdleIsEmpty();
    hide Scheduler.Valid, InOrder, Exclusive, Without, NoDup, Ids, Nodes, Active, Asked, Enqueued, HandedOver, NodeCancelled, BranchCancelled, TreeCancelled;
    match step {
      case Start(t, errored) =>
        if t < |s.tasks| && s.tasks[t].phase == Created && !s.tasks[t].cancelled {
          s.StartTask(t, errored);
        }
      case End(t) =>
        if t < |s.tasks| && s.tasks[t].phase == Running {
          s.EndHandler(t);
        }
      case Clear(t) =>
        if t < |s.tasks| && s.tasks[t].phase == Ending {
          s.ClearCurrentNode(t);
        }
      case HandOver(t, present) =>
        if t < |s.tasks| && s.tasks[t].phase == Handing {
          s.ProcessNext(t, present);
        }
      case Perish(t) =>
        if t < |s.tasks| && s.tasks[t].cancelled && s.tasks[t].phase in {Created, Ending, Handing} {
          s.Die(t);
        }
      case _ =>
    }
  }

  lemma {:induction false} DroppedWereAskedFor(steps: seq<Step>)
    ensures var s := Replay(steps);
            && s.log.arrived == Arrivals(steps) && s.log.dropped <= AskedFor(steps)
            && Ids(s.deque) <= Ids(Arrivals(steps))
  {
    if steps != [] {
      var init, last := steps[..|steps| - 1], steps[|steps| - 1];
      DroppedWereAskedFor(init);
      StepDrops(Replay(init), last);
      hide Next;
      if last.Arrive? {
        assert last.node in Arrivals(steps);
        assert forall x :: x in Arrivals(init) ==> x in Arrivals(steps);
      }
    }
  }

  lemma StepDrops(s: State, step: Step)
    ensures var t := Next(s, step);
            && t.log.arrived == s.log.arrived + (if step.Arrive? && step.node !in s.log.arrived then [step.node] else [])
            && Ids(t.deque) <= Ids(s.deque) + (if step.Arrive? then {step.node} else {})
            && t.log.dropped <= s.log.dropped + match step
                                                case CancelOne(node, active) => OneActive((node, active))
                                                case CancelMany(branch) => Active(branch)
                                                case CancelAll => Ids(s.deque)
                                                case _ => {}
  {
    hide Active;
    assert s.log.arrived + [] == s.log.arrived;
    match step
    case Arrive(node, _) => assert forall x :: x in s.deque + [node] <==> x in s.deque || x == node;
    case CancelMany(branch) => BranchDrops(s, branch);
    case CancelOne(node, active) => WithoutFacts(s.deque, {node});
    case _ =>
  }

  lemma {:induction false} BranchDrops(s: State, branch: seq<(Id, bool)>)
    ensures var t := BranchCancelled(s, branch);
            t.log.arrived == s.log.arrived && t.log.dropped <= s.log.dropped + Active(branch) && Ids(t.deque) <= Ids(s.deque)
  {
    if branch != [] {
      BranchDrops(s, branch[..|branch| - 1]);
      WithoutFacts(BranchCancelled(s, branch[..|branch| - 1]).deque, {branch[|branch| - 1].0});
    }
  }

  /** In every state where a task is before its hand-over, cancelling the whole tree and then
      enqueueing one more node leaves two such tasks. */
  method CancelTreeThenEnqueue(s: Scheduler, node: Id) returns (i: nat, j: nat)
    requires s.Valid() && Working(s.tasks, s.currentTask) && node !in s.log.arrived
    modifies s, s.queue
    ensures i < j < |s.tasks| && Live(s.tasks[i]) && Live(s.tasks[j]) && s.tasks[j].node == node
  {
    i, j := s.currentTask.value, |s.tasks|;
    var _ := s.CancelTree();
    var _ := s.EnqueueAndStart(node, true);
  }

  // ---------------------------------------------------------------- why each step keeps the order

  lemma {:induction false} NodesAre(tasks: seq<Task>)
    ensures |Nodes(tasks)| == |tasks| && forall i :: 0 <= i < |tasks| ==> Nodes(tasks)[i] == tasks[i].node
  {
    if tasks != [] {
      NodesAre(tasks[..|tasks| - 1]);
    }
  }

  lemma SameNodes(tasks: seq<Task>, t: nat, task: Task)
    requires t < |tasks| && task.node == tasks[t].node
    ensures Nodes(tasks[t := task]) == Nodes(tasks)
  {
    NodesAre(tasks);
    NodesAre(tasks[t := task]);
  }

  lemma SameOrder(deque: seq<Id>, tasks: seq<Task>, log: Log, t: nat, task: Task)
    requires InOrder(deque, tasks, log) && t < |tasks| && task.node == tasks[t].node
    ensures InOrder(deque, tasks[t := task], log)
  {
    SameNodes(tasks, t, task);
  }

  lemma WithoutAll(s: seq<Id>)
    ensures Without(s, Ids(s)) == []
  {
    WithoutFacts(s, Ids(s));
  }

  lemma {:induction false} WithoutOne(s: seq<Id>, gone: set<Id>, more: Id)
    requires more !in s
    ensures Without(s, gone + {more}) == Without(s, gone)
  {
    if s != [] {
      WithoutOne(s[..|s| - 1], gone, more);
    }
  }

  /** A node that has not arrived is in none of the records. */
  lemma NeverSeen(deque: seq<Id>, tasks: seq<Task>, log: Log, node: Id)
    requires InOrder(deque, tasks, log) && node !in log.arrived
    ensures node !in deque && node !in log.dispatched
  {
    WithoutFacts(log.arrived, log.dropped);
    assert forall x :: x in deque ==> x in log.dispatched + deque;
    assert forall x :: x in log.dispatched ==> x in log.dispatched + deque;
  }

  lemma ArrivalKeepsOrder(deque: seq<Id>, tasks: seq<Task>, log: Log, node: Id)
    requires InOrder(deque, tasks, log) && node !in log.arrived
    ensures InOrder(deque + [node], tasks, log.(arrived := log.arrived + [node]))
  {
    WithoutNext(log.arrived, node, log.dropped);
    assert log.dispatched + (deque + [node]) == (log.dispatched + deque) + [node];
  }

  lemma DispatchKeepsOrder(rest: seq<Id>, tasks: seq<Task>, log: Log, node: Id, present: bool)
    requires InOrder([node] + rest, tasks, log)
    ensures InOrder(rest, if present then tasks + [Task(node, Created, false)] else tasks,
                    log.(dispatched := log.dispatched + [node], lost := !present,
                         missing := if present then log.missing else log.missing + {node}))
  {
    assert log.dispatched + ([node] + rest) == (log.dispatched + [node]) + rest;
    Disjoint(log, [node] + rest);
    assert node in [node] + rest;
    WithoutNext(log.dispatched, node, log.missing);
    WithoutNext(log.dispatched, node, log.missing + {node});
    WithoutOne(log.dispatched, log.missing, node);
    var more := tasks + [Task(node, Created, false)];
    assert more[..|more| - 1] == tasks;
  }

  lemma Split(a: seq<Id>, b: seq<Id>)
    requires NoDup(a + b)
    ensures NoDup(a) && NoDup(b) && forall x :: x in a ==> x !in b
  {
    var all := a + b;
    assert forall i :: 0 <= i < |b| ==> b[i] == all[|a| + i];
    assert forall i :: 0 <= i < |a| ==> a[i] == all[i];
  }

  lemma Disjoint(log: Log, deque: seq<Id>)
    requires NoDup(log.arrived) && Without(log.arrived, log.dropped) == log.dispatched + deque
    ensures NoDup(deque) && NoDup(log.dispatched) && forall x :: x in log.dispatched ==> x !in deque
  {
    WithoutNoDup(log.arrived, log.dropped);
    Split(log.dispatched, deque);
  }

  lemma DropKeepsOrder(deque: seq<Id>, tasks: seq<Task>, log: Log, gone: set<Id>)
    requires InOrder(deque, tasks, log) && forall x :: x in gone ==> x in deque
    ensures InOrder(Without(deque, gone), tasks, log.(dropped := log.dropped + gone))
  {
    Disjoint(log, deque);
    WithoutFacts(log.arrived, log.dropped);
    assert forall x :: x in deque ==> x in log.dispatched + deque;
    WithoutTwice(log.arrived, log.dropped, gone);
    WithoutConcat(log.dispatched, deque, gone);
    WithoutFacts(log.dispatched, gone);
  }

  lemma UnqueueKeepsOrder(deque: seq<Id>, tasks: seq<Task>, log: Log, node: Id)
    requires InOrder(deque, tasks, log)
    ensures InOrder(Without(deque, {node}), tasks, if node in deque then log.(dropped := log.dropped + {node}) else log)
  {
    if node in deque {
      DropKeepsOrder(deque, tasks, log, {node});
    } else {
      WithoutFacts(deque, {node});
    }
  }

  /** A dispatch with no task before its hand-over leaves at most the new one. */
  lemma DispatchIsExclusive(rest: seq<Id>, tasks: seq<Task>, current: Option<nat>, node: Id, present: bool)
    requires Alone(tasks, current) && !Working(tasks, current)
    ensures Exclusive(rest, true, Some(node), if present then tasks + [Task(node, Created, false)] else tasks,
                      if present then Some(|tasks|) else current, !present)
  {
  }
}
