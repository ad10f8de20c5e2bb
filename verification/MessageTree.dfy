/** One conversation tree: its nodes, the index from status messages to nodes, and the operations
    that walk a subtree. */
module MessageTrees {
  import opened Wrappers
  import opened TreeScheduler

  datatype State = Pending | InProgress | Completed | Errored

  predicate Unsettled(s: State) {
    s == Pending || s == InProgress
  }

  /** `status` is the bot's own message that shows the state of this one. */
  datatype Node = Node(status: Id, state: State, parent: Option<Id>, children: seq<Id>)

  // ---------------------------------------------------------------- what a tree is

  /** Parent and child links agree, and every step up lowers the depth, so the links have no cycle. */
  ghost predicate Linked(nodes: map<Id, Node>, root: Id, depth: map<Id, nat>) {
    && root in nodes && nodes[root].parent == None && nodes.Keys <= depth.Keys
    && forall x :: x in nodes ==> HasParent(nodes, root, depth, x) && HasChildren(nodes, x)
  }

  ghost predicate HasParent(nodes: map<Id, Node>, root: Id, depth: map<Id, nat>, x: Id)
    requires x in nodes && nodes.Keys <= depth.Keys
  {
    x != root ==>
      && nodes[x].parent.Some? && nodes[x].parent.value in nodes
      && x in nodes[nodes[x].parent.value].children
      && depth[x] == depth[nodes[x].parent.value] + 1
  }

  ghost predicate HasChildren(nodes: map<Id, Node>, x: Id)
    requires x in nodes
  {
    && NoDup(nodes[x].children)
    && forall c :: c in nodes[x].children ==> c in nodes && nodes[c].parent == Some(x)
  }

  /** The status index is exactly the inverse of the nodes' status ids. */
  ghost predicate Indexed(nodes: map<Id, Node>, statusToNode: map<Id, Id>) {
    && (forall x :: x in nodes ==> nodes[x].status in statusToNode && statusToNode[nodes[x].status] == x)
    && (forall s :: s in statusToNode ==> statusToNode[s] in nodes && nodes[statusToNode[s]].status == s)
  }

  /** Climbing from `x` reaches `top`; with `only`, through pending nodes alone (`top` aside). */
  ghost predicate Below(nodes: map<Id, Node>, root: Id, depth: map<Id, nat>, only: bool, x: Id, top: Id)
    requires Linked(nodes, root, depth) && x in nodes
    decreases depth[x]
  {
    || x == top
    || (x != root && (only ==> nodes[x].state == Pending)
        && (assert HasParent(nodes, root, depth, x); Below(nodes, root, depth, only, nodes[x].parent.value, top)))
  }

  ghost function Subtree(nodes: map<Id, Node>, root: Id, depth: map<Id, nat>, only: bool, top: Id): set<Id>
    requires Linked(nodes, root, depth)
  {
    set x | x in nodes && Below(nodes, root, depth, only, x, top)
  }

  /** Every node is reachable from the root. */
  lemma {:induction false} AllUnderRoot(nodes: map<Id, Node>, root: Id, depth: map<Id, nat>, x: Id)
    requires Linked(nodes, root, depth) && x in nodes
    ensures Below(nodes, root, depth, false, x, root)
    decreases depth[x]
  {
    assert HasParent(nodes, root, depth, x);
    if x != root {
      AllUnderRoot(nodes, root, depth, nodes[x].parent.value);
    }
  }

  lemma RootIsUnderItself(nodes: map<Id, Node>, root: Id, depth: map<Id, nat>, only: bool, top: Id)
    requires Linked(nodes, root, depth)
    ensures Below(nodes, root, depth, only, root, top) <==> top == root
  {
  }

  // ---------------------------------------------------------------- walking down with a stack

  predicate Counts(nodes: map<Id, Node>, only: bool, x: Id) {
    x in nodes && (only ==> nodes[x].state == Pending)
  }

  /** The children the walk goes on to. */
  function Kids(nodes: map<Id, Node>, only: bool, s: seq<Id>): seq<Id> {
    if s == [] then []
    else Kids(nodes, only, s[..|s| - 1]) + if Counts(nodes, only, s[|s| - 1]) then [s[|s| - 1]] else []
  }

  lemma {:induction false} KidsAre(nodes: map<Id, Node>, only: bool, s: seq<Id>)
    ensures forall c :: c in Kids(nodes, only, s) <==> c in s && Counts(nodes, only, c)
    ensures NoDup(s) ==> NoDup(Kids(nodes, only, s))
  {
    if s != [] {
      var init, last := s[..|s| - 1], s[|s| - 1];
      KidsAre(nodes, only, init);
      assert s == init + [last];
      if NoDup(s) {
        assert last !in init;
      }
    }
  }

  lemma {:induction false} AllKids(nodes: map<Id, Node>, s: seq<Id>)
    requires forall c :: c in s ==> c in nodes
    ensures Kids(nodes, false, s) == s
  {
    if s != [] {
      AllKids(nodes, s[..|s| - 1]);
    }
  }

  /** Nodes already visited and nodes still on the stack: each once, each reached from a visited
      parent, and no child of a visited node forgotten. */
  ghost predicate Frontier(nodes: map<Id, Node>, only: bool, top: Id, done: seq<Id>, stack: seq<Id>) {
    && NoDup(done + stack) && top in done + stack
    && (forall x :: x in done + stack ==> x in nodes && (x == top || ReachedFrom(nodes, only, done, x)))
    && (forall x, c :: x in done && c in nodes[x].children && Counts(nodes, only, c) ==> c in done + stack)
  }

  predicate ReachedFrom(nodes: map<Id, Node>, only: bool, done: seq<Id>, x: Id) {
    Counts(nodes, only, x) && nodes[x].parent.Some? && nodes[x].parent.value in done
  }

  lemma FrontierStart(nodes: map<Id, Node>, only: bool, top: Id)
    requires top in nodes
    ensures Frontier(nodes, only, top, [], [top])
  {
  }

  lemma NoDupConcat(a: seq<Id>, b: seq<Id>)
    requires NoDup(a) && NoDup(b) && forall x :: x in a ==> x !in b
    ensures NoDup(a + b)
  {
    forall i, j | 0 <= i < j < |a + b|
      ensures (a + b)[i] != (a + b)[j]
    {
      if i < |a| <= j {
        assert (a + b)[i] in a;
      }
    }
  }

  /** The walk moves one node over and pushes new ones. */
  lemma Shuffle(done: seq<Id>, rest: seq<Id>, x: Id, kids: seq<Id>)
    requires NoDup(done + (rest + [x])) && NoDup(kids) && forall c :: c in kids ==> c !in done + (rest + [x])
    ensures NoDup((done + [x]) + (rest + kids))
    ensures forall y :: y in (done + [x]) + (rest + kids) <==> y in done + (rest + [x]) || y in kids
  {
    Split(done, rest + [x]);
    Split(rest, [x]);
    assert forall y :: y in rest + [x] <==> y in rest || y == x;
    assert forall y :: y in done + (rest + [x]) <==> y in done || y in rest + [x];
    NoDupConcat(done, [x]);
    NoDupConcat(rest, kids);
    NoDupConcat(done + [x], rest + kids);
  }

  lemma FrontierNext(nodes: map<Id, Node>, root: Id, depth: map<Id, nat>, only: bool, top: Id, done: seq<Id>, stack: seq<Id>)
    requires Linked(nodes, root, depth) && Frontier(nodes, only, top, done, stack) && stack != []
    ensures stack[|stack| - 1] in nodes
    ensures Frontier(nodes, only, top, done + [stack[|stack| - 1]],
                     stack[..|stack| - 1] + Kids(nodes, only, nodes[stack[|stack| - 1]].children))
    ensures forall c :: c in Kids(nodes, only, nodes[stack[|stack| - 1]].children) ==> c !in done + stack
  {
    var rest, x := stack[..|stack| - 1], stack[|stack| - 1];
    assert stack == rest + [x];
    assert x in done + stack;
    var kids := Kids(nodes, only, nodes[x].children);
    KidsAre(nodes, only, nodes[x].children);
    assert HasChildren(nodes, x);
    forall c | c in kids
      ensures c !in done + stack
    {
      KidIsNew(nodes, root, depth, only, top, done, stack, x, c);
    }
    Shuffle(done, rest, x, kids);
    FrontierMoves(nodes, only, top, done, stack, x, kids, rest + kids);
    hide *;
  }

  lemma FrontierMoves(nodes: map<Id, Node>, only: bool, top: Id, done: seq<Id>, stack: seq<Id>, x: Id, kids: seq<Id>, next: seq<Id>)
    requires Frontier(nodes, only, top, done, stack) && x in nodes && HasChildren(nodes, x)
    requires NoDup((done + [x]) + next)
    requires forall y :: y in (done + [x]) + next <==> y in done + stack || y in kids
    requires forall c :: c in kids <==> c in nodes[x].children && Counts(nodes, only, c)
    ensures Frontier(nodes, only, top, done + [x], next)
  {
    hide NoDup;
    assert forall y :: y in done + [x] <==> y in done || y == x;
    assert forall y :: ReachedFrom(nodes, only, done, y) ==> ReachedFrom(nodes, only, done + [x], y);
    assert forall y :: y in kids ==> ReachedFrom(nodes, only, done + [x], y);
    var all, was := (done + [x]) + next, done + stack;
    assert forall y :: y in all <==> y in was || y in kids;
    assert top in all;
  }

  /** A child of a node on the stack has not been reached: its only parent is not yet visited. */
  lemma KidIsNew(nodes: map<Id, Node>, root: Id, depth: map<Id, nat>, only: bool, top: Id, done: seq<Id>, stack: seq<Id>, x: Id, c: Id)
    requires Linked(nodes, root, depth) && Frontier(nodes, only, top, done, stack)
    requires x in stack && x in nodes && c in nodes[x].children
    ensures c !in done + stack
  {
    assert HasChildren(nodes, x) && HasParent(nodes, root, depth, c);
    assert x in done + stack;
    TopIsAbove(nodes, root, depth, only, top, done, stack, x);
    Split(done, stack);
  }

  lemma {:induction false} TopIsAbove(nodes: map<Id, Node>, root: Id, depth: map<Id, nat>, only: bool, top: Id, done: seq<Id>, stack: seq<Id>, x: Id)
    requires Linked(nodes, root, depth) && Frontier(nodes, only, top, done, stack) && x in done + stack
    ensures top in nodes && x in nodes && depth[top] <= depth[x]
    decreases depth[x]
  {
    if x != top {
      assert HasParent(nodes, root, depth, x);
      TopIsAbove(nodes, root, depth, only, top, done, stack, nodes[x].parent.value);
    }
  }

  /** With the stack empty, the visited nodes are exactly the subtree. */
  lemma {:induction false} FrontierEnd(nodes: map<Id, Node>, root: Id, depth: map<Id, nat>, only: bool, top: Id, done: seq<Id>, x: Id)
    requires Linked(nodes, root, depth) && Frontier(nodes, only, top, done, []) && x in nodes
    ensures x in done <==> Below(nodes, root, depth, only, x, top)
    decreases depth[x]
  {
    assert done + [] == done;
    assert HasParent(nodes, root, depth, x);
    if x != top && x != root {
      FrontierEnd(nodes, root, depth, only, top, done, nodes[x].parent.value);
    }
  }

  lemma FrontierIsSubtree(nodes: map<Id, Node>, root: Id, depth: map<Id, nat>, only: bool, top: Id, done: seq<Id>)
    requires Linked(nodes, root, depth) && Frontier(nodes, only, top, done, [])
    ensures NoDup(done) && Ids(done) == Subtree(nodes, root, depth, only, top)
  {
    assert done + [] == done;
    forall x | x in nodes
      ensures x in done <==> Below(nodes, root, depth, only, x, top)
    {
      FrontierEnd(nodes, root, depth, only, top, done, x);
    }
  }

  lemma {:induction false} NoDupSize(s: seq<Id>, all: set<Id>)
    requires NoDup(s) && forall x :: x in s ==> x in all
    ensures |s| <= |all|
  {
    if s != [] {
      var init, last := s[..|s| - 1], s[|s| - 1];
      assert last !in init;
      NoDupSize(init, all - {last});
    }
  }

  // ---------------------------------------------------------------- changes

  /** Some nodes get a new state; nothing else changes. */
  function WithState(nodes: map<Id, Node>, which: set<Id>, state: State): map<Id, Node> {
    map x | x in nodes :: if x in which then nodes[x].(state := state) else nodes[x]
  }

  lemma StatesDoNotMatter(nodes: map<Id, Node>, root: Id, depth: map<Id, nat>, statusToNode: map<Id, Id>, which: set<Id>, state: State)
    requires Linked(nodes, root, depth) && Indexed(nodes, statusToNode)
    ensures Linked(WithState(nodes, which, state), root, depth) && Indexed(WithState(nodes, which, state), statusToNode)
  {
    var after := WithState(nodes, which, state);
    SameAnswers(nodes, after, statusToNode);
    assert SameButState(nodes, after) && after[root].parent == None;
    hide Indexed, NoDup, HasParent, HasChildren, WithState;
    forall x | x in after
      ensures HasParent(after, root, depth, x) && HasChildren(after, x)
    {
      SameLinks(nodes, after, root, depth, x);
    }
  }

  lemma SameAnswers(nodes: map<Id, Node>, after: map<Id, Node>, statusToNode: map<Id, Id>)
    requires Indexed(nodes, statusToNode) && nodes.Keys == after.Keys
    requires forall y :: y in nodes ==> after[y].status == nodes[y].status
    ensures Indexed(after, statusToNode)
  {
  }

  predicate SameButState(nodes: map<Id, Node>, after: map<Id, Node>) {
    nodes.Keys == after.Keys && forall y :: y in nodes ==> after[y] == nodes[y].(state := after[y].state)
  }

  lemma SameLinks(nodes: map<Id, Node>, after: map<Id, Node>, root: Id, depth: map<Id, nat>, x: Id)
    requires x in nodes && nodes.Keys <= depth.Keys && HasParent(nodes, root, depth, x) && HasChildren(nodes, x)
    requires SameButState(nodes, after)
    ensures HasParent(after, root, depth, x) && HasChildren(after, x)
  {
    hide NoDup;
  }

  /** A subtree is gone, from its parent's list of children too. */
  function Pruned(nodes: map<Id, Node>, gone: set<Id>, branch: Id): map<Id, Node>
    requires branch in nodes
  {
    map x | x in nodes && x !in gone ::
      if nodes[branch].parent == Some(x) then nodes[x].(children := Without(nodes[x].children, {branch})) else nodes[x]
  }

  lemma PruneKeepsLinks(nodes: map<Id, Node>, root: Id, depth: map<Id, nat>, branch: Id)
    requires Linked(nodes, root, depth) && branch in nodes && branch != root
    ensures Linked(Pruned(nodes, Subtree(nodes, root, depth, false, branch), branch), root, depth)
  {
    var gone := Subtree(nodes, root, depth, false, branch);
    var after := Pruned(nodes, gone, branch);
    RootIsUnderItself(nodes, root, depth, false, branch);
    assert HasParent(nodes, root, depth, branch);
    forall x | x in after
      ensures HasParent(after, root, depth, x) && HasChildren(after, x)
    {
      StaysPut(nodes, root, depth, branch, x);
      PruneKeepsParent(nodes, root, depth, branch, x, gone);
      PruneKeepsChildren(nodes, root, depth, branch, x, gone);
      hide *;
    }
  }

  /** Outside the subtree, the parent is outside too, and so are the children but for the branch itself. */
  lemma StaysPut(nodes: map<Id, Node>, root: Id, depth: map<Id, nat>, branch: Id, x: Id)
    requires Linked(nodes, root, depth) && x in nodes && !Below(nodes, root, depth, false, x, branch)
    ensures x != root ==> HasParent(nodes, root, depth, x) && !Below(nodes, root, depth, false, nodes[x].parent.value, branch)
    ensures HasChildren(nodes, x)
    ensures forall c :: c in nodes[x].children && c != branch ==> !Below(nodes, root, depth, false, c, branch)
  {
    assert HasParent(nodes, root, depth, x) && HasChildren(nodes, x);
    forall c | c in nodes[x].children && c != branch
      ensures !Below(nodes, root, depth, false, c, branch)
    {
      assert HasParent(nodes, root, depth, c);
    }
  }

  lemma PruneKeepsParent(nodes: map<Id, Node>, root: Id, depth: map<Id, nat>, branch: Id, x: Id, gone: set<Id>)
    requires branch in nodes && branch in gone && x in nodes && x !in gone && nodes.Keys <= depth.Keys
    requires x != root ==> HasParent(nodes, root, depth, x) && nodes[x].parent.value !in gone
    ensures HasParent(Pruned(nodes, gone, branch), root, depth, x)
  {
    hide Without, NoDup;
    var after := Pruned(nodes, gone, branch);
    if x != root {
      var p := nodes[x].parent.value;
      WithoutFacts(nodes[p].children, {branch});
      assert after[p].children == nodes[p].children || after[p].children == Without(nodes[p].children, {branch});
      assert x in after[p].children;
    }
  }

  lemma PruneKeepsChildren(nodes: map<Id, Node>, root: Id, depth: map<Id, nat>, branch: Id, x: Id, gone: set<Id>)
    requires branch in nodes && x in nodes && x !in gone && HasChildren(nodes, x)
    requires forall c :: c in nodes[x].children && c != branch ==> c !in gone
    ensures HasChildren(Pruned(nodes, gone, branch), x)
  {
    WithoutFacts(nodes[x].children, {branch});
    WithoutNoDup(nodes[x].children, {branch});
    hide NoDup, Without;
  }

  /** The nodes left are those outside the subtree, and their statuses are those left in the index. */
  lemma PruneKeepsIndex(nodes: map<Id, Node>, statusToNode: map<Id, Id>, gone: set<Id>, branch: Id)
    requires Indexed(nodes, statusToNode) && branch in nodes
    ensures Indexed(Pruned(nodes, gone, branch), StatusesWithout(statusToNode, gone))
  {
  }

  function StatusesWithout(statusToNode: map<Id, Id>, gone: set<Id>): map<Id, Id> {
    map s | s in statusToNode && statusToNode[s] !in gone :: statusToNode[s]
  }

  lemma PruneKeepsShape(nodes: map<Id, Node>, statusToNode: map<Id, Id>, root: Id, depth: map<Id, nat>, branch: Id, gone: set<Id>)
    requires Linked(nodes, root, depth) && Indexed(nodes, statusToNode) && branch in nodes
    requires gone == Subtree(nodes, root, depth, false, branch)
    ensures Linked(Pruned(nodes, gone, branch), root, depth) && Indexed(Pruned(nodes, gone, branch), StatusesWithout(statusToNode, gone))
            <==> branch != root
    ensures branch in gone && gone <= nodes.Keys && (nodes[branch].parent.Some? ==> nodes[branch].parent.value in nodes.Keys - gone)
  {
    assert HasParent(nodes, root, depth, branch);
    PruneKeepsIndex(nodes, statusToNode, gone, branch);
    assert branch in gone;
    if branch == root {
      assert !Linked(Pruned(nodes, gone, branch), root, depth) && nodes[branch].parent == None;
    } else {
      PruneKeepsLinks(nodes, root, depth, branch);
      ParentIsOutside(nodes, root, depth, branch, nodes[branch].parent.value);
      assert nodes[branch].parent.value in nodes.Keys - gone;
    }
    hide Linked, Indexed;
  }

  /** Nothing in a subtree lies higher than its top. */
  lemma {:induction false} TopIsHighest(nodes: map<Id, Node>, root: Id, depth: map<Id, nat>, only: bool, x: Id, top: Id)
    requires Linked(nodes, root, depth) && x in nodes && Below(nodes, root, depth, only, x, top)
    ensures top in nodes && depth[top] <= depth[x]
    decreases depth[x]
  {
    assert HasParent(nodes, root, depth, x);
    if x != top {
      TopIsHighest(nodes, root, depth, only, nodes[x].parent.value, top);
    }
  }

  lemma ParentIsOutside(nodes: map<Id, Node>, root: Id, depth: map<Id, nat>, branch: Id, p: Id)
    requires Linked(nodes, root, depth) && branch in nodes && nodes[branch].parent == Some(p)
    ensures p in nodes && !Below(nodes, root, depth, false, p, branch)
  {
    assert HasParent(nodes, root, depth, branch);
    if Below(nodes, root, depth, false, p, branch) {
      TopIsHighest(nodes, root, depth, false, p, branch);
    }
  }

  lemma PruneStart(nodes: map<Id, Node>, statusToNode: map<Id, Id>)
    ensures nodes - Ids([]) == nodes && StatusesWithout(statusToNode, Ids([])) == statusToNode
  {
  }

  lemma PruneNext(nodes: map<Id, Node>, statusToNode: map<Id, Id>, root: Id, depth: map<Id, nat>, branch: Id, all: seq<Id>, n: nat)
    requires Linked(nodes, root, depth) && Indexed(nodes, statusToNode)
    requires n < |all| && NoDup(all) && Ids(all) == Subtree(nodes, root, depth, false, branch)
    ensures all[n] in nodes - Ids(all[..n]) && nodes[all[n]].status in StatusesWithout(statusToNode, Ids(all[..n]))
    ensures (nodes - Ids(all[..n])) - {all[n]} == nodes - Ids(all[..n + 1])
    ensures StatusesWithout(statusToNode, Ids(all[..n])) - {nodes[all[n]].status} == StatusesWithout(statusToNode, Ids(all[..n + 1]))
  {
    NextIds(all, n);
    assert all[n] in Ids(all);
    assert all[n] !in all[..n];
  }

  lemma PruneEnd(nodes: map<Id, Node>, branch: Id, gone: set<Id>)
    requires branch in nodes && (nodes[branch].parent.Some? ==> nodes[branch].parent.value in nodes.Keys - gone)
    ensures var rest := nodes - gone;
            Pruned(nodes, gone, branch) == match nodes[branch].parent
              case None => rest
              case Some(p) => rest[p := rest[p].(children := Without(rest[p].children, {branch}))]
  {
  }

  /** A new node under `parent`. */
  function Grown(nodes: map<Id, Node>, node: Id, status: Id, parent: Id): map<Id, Node>
    requires parent in nodes
  {
    var placed := nodes[node := Node(status, Pending, Some(parent), [])];
    placed[parent := placed[parent].(children := placed[parent].children + [node])]
  }

  /** Growing keeps the tree a tree exactly when both ids are new to it. */
  lemma GrowNeedsNewIds(nodes: map<Id, Node>, statusToNode: map<Id, Id>, root: Id, depth: map<Id, nat>, deeper: map<Id, nat>, node: Id, status: Id, parent: Id)
    requires Linked(nodes, root, depth) && Indexed(nodes, statusToNode) && parent in nodes
    requires Linked(Grown(nodes, node, status, parent), root, deeper)
    requires Indexed(Grown(nodes, node, status, parent), statusToNode[status := node])
    ensures node !in nodes && status !in statusToNode
  {
    if node in nodes {
      OldNodeBreaksLinks(nodes, root, depth, deeper, node, status, parent);
    }
    var owner := if status in statusToNode then statusToNode[status] else node;
    assert owner in Grown(nodes, node, status, parent) && Grown(nodes, node, status, parent)[owner].status == status;
  }

  lemma OldNodeBreaksLinks(nodes: map<Id, Node>, root: Id, depth: map<Id, nat>, deeper: map<Id, nat>, node: Id, status: Id, parent: Id)
    requires Linked(nodes, root, depth) && parent in nodes && node in nodes
    ensures !Linked(Grown(nodes, node, status, parent), root, deeper)
  {
    var after := Grown(nodes, node, status, parent);
    assert HasParent(nodes, root, depth, node);
    if node != root {
      var was := nodes[node].parent.value;
      assert was != node && node in after[was].children;
      var c := nodes[was].children;
      if was == parent {
        var i :| 0 <= i < |c| && c[i] == node;
        assert after[was].children == c + [node];
        assert (c + [node])[i] == (c + [node])[|c|];
        assert !NoDup(c + [node]);
      }
      assert !HasChildren(after, was);
    }
  }

  lemma GrowKeepsLinks(nodes: map<Id, Node>, root: Id, depth: map<Id, nat>, node: Id, status: Id, parent: Id)
    requires Linked(nodes, root, depth) && parent in nodes && node !in nodes
    ensures Linked(Grown(nodes, node, status, parent), root, depth[node := depth[parent] + 1])
  {
    var after, deeper := Grown(nodes, node, status, parent), depth[node := depth[parent] + 1];
    assert after.Keys == nodes.Keys + {node} && after[root].parent == None;
    GrowKeepsEach(nodes, root, depth, node, status, parent);
    hide HasParent, HasChildren, NoDup, Grown;
  }

  lemma GrowKeepsEach(nodes: map<Id, Node>, root: Id, depth: map<Id, nat>, node: Id, status: Id, parent: Id)
    requires Linked(nodes, root, depth) && parent in nodes && node !in nodes
    ensures forall x :: x in Grown(nodes, node, status, parent) ==>
              && HasParent(Grown(nodes, node, status, parent), root, depth[node := depth[parent] + 1], x)
              && HasChildren(Grown(nodes, node, status, parent), x)
  {
    var after, deeper := Grown(nodes, node, status, parent), depth[node := depth[parent] + 1];
    assert after.Keys == nodes.Keys + {node};
    assert HasParent(after, root, deeper, node) && HasChildren(after, node);
    hide HasParent, HasChildren, NoDup, Grown;
    forall x | x in after
      ensures HasParent(after, root, deeper, x) && HasChildren(after, x)
    {
      if x != node {
        GrowKeepsNode(nodes, root, depth, node, status, parent, x);
      }
    }
  }

  /** A new pair of ids keeps the tree a tree, and no other does. */
  lemma GrowKeepsShape(nodes: map<Id, Node>, statusToNode: map<Id, Id>, root: Id, depth: map<Id, nat>, node: Id, status: Id, parent: Id)
    requires Linked(nodes, root, depth) && Indexed(nodes, statusToNode) && parent in nodes
    ensures Linked(Grown(nodes, node, status, parent), root, depth[node := depth[parent] + 1])
            && Indexed(Grown(nodes, node, status, parent), statusToNode[status := node])
            <==> node !in nodes && status !in statusToNode
  {
    var after, index, deeper := Grown(nodes, node, status, parent), statusToNode[status := node], depth[node := depth[parent] + 1];
    if node !in nodes && status !in statusToNode {
      GrowKeepsLinks(nodes, root, depth, node, status, parent);
      GrowKeepsIndex(nodes, statusToNode, node, status, parent);
    } else if Linked(after, root, deeper) && Indexed(after, index) {
      GrowNeedsNewIds(nodes, statusToNode, root, depth, deeper, node, status, parent);
    }
    hide *;
  }

  lemma GrowReady(nodes: map<Id, Node>, statusToNode: map<Id, Id>, root: Id, depth: map<Id, nat>, node: Id, status: Id, parent: Id)
    returns (level: nat)
    requires Linked(nodes, root, depth) && Indexed(nodes, statusToNode) && parent in nodes
    ensures var placed := nodes[node := Node(status, Pending, Some(parent), [])];
            Grown(nodes, node, status, parent) == placed[parent := placed[parent].(children := placed[parent].children + [node])]
    ensures Linked(Grown(nodes, node, status, parent), root, depth[node := level])
            && Indexed(Grown(nodes, node, status, parent), statusToNode[status := node])
            <==> node !in nodes && status !in statusToNode
  {
    level := depth[parent] + 1;
    GrowKeepsShape(nodes, statusToNode, root, depth, node, status, parent);
    hide Linked, Indexed;
  }

  lemma GrowKeepsIndex(nodes: map<Id, Node>, statusToNode: map<Id, Id>, node: Id, status: Id, parent: Id)
    requires Indexed(nodes, statusToNode) && parent in nodes && node !in nodes && status !in statusToNode
    ensures Indexed(Grown(nodes, node, status, parent), statusToNode[status := node])
  {
  }

  lemma GrowKeepsNode(nodes: map<Id, Node>, root: Id, depth: map<Id, nat>, node: Id, status: Id, parent: Id, x: Id)
    requires parent in nodes && node !in nodes && x in nodes && nodes.Keys <= depth.Keys
    requires HasParent(nodes, root, depth, x) && HasChildren(nodes, x)
    ensures HasParent(Grown(nodes, node, status, parent), root, depth[node := depth[parent] + 1], x)
    ensures HasChildren(Grown(nodes, node, status, parent), x)
  {
    assert forall c :: c in nodes[x].children ==> c in nodes;
    if x == parent {
      NoDupConcat(nodes[x].children, [node]);
    }
  }

  lemma FrontierSize(nodes: map<Id, Node>, only: bool, top: Id, done: seq<Id>, stack: seq<Id>)
    requires Frontier(nodes, only, top, done, stack)
    ensures |done| <= |nodes|
  {
    Split(done, stack);
    assert forall x :: x in done ==> x in done + stack;
    NoDupSize(done, nodes.Keys);
  }

  /** The state of the node the closure starts from makes no difference to it. */
  lemma {:induction false} TopStateDoesNotMatter(nodes: map<Id, Node>, root: Id, depth: map<Id, nat>, top: Id, state: State, x: Id)
    requires Linked(nodes, root, depth) && Linked(WithState(nodes, {top}, state), root, depth) && x in nodes
    ensures Below(WithState(nodes, {top}, state), root, depth, true, x, top) <==> Below(nodes, root, depth, true, x, top)
    decreases depth[x]
  {
    assert HasParent(nodes, root, depth, x);
    if x != top && x != root {
      TopStateDoesNotMatter(nodes, root, depth, top, state, nodes[x].parent.value);
    }
  }

  lemma SameClosure(nodes: map<Id, Node>, root: Id, depth: map<Id, nat>, top: Id, state: State)
    requires Linked(nodes, root, depth) && Linked(WithState(nodes, {top}, state), root, depth)
    ensures Subtree(WithState(nodes, {top}, state), root, depth, true, top) == Subtree(nodes, root, depth, true, top)
  {
    forall x | x in nodes
      ensures Below(WithState(nodes, {top}, state), root, depth, true, x, top) <==> Below(nodes, root, depth, true, x, top)
    {
      TopStateDoesNotMatter(nodes, root, depth, top, state, x);
    }
  }

  ghost predicate NoPendingChild(nodes: map<Id, Node>, s: set<Id>) {
    forall x, c :: x in s && x in nodes && c in nodes[x].children ==> !Counts(nodes, true, c)
  }

  lemma MarkedIsClosed(nodes: map<Id, Node>, root: Id, depth: map<Id, nat>, top: Id)
    requires Linked(nodes, root, depth)
    ensures NoPendingChild(WithState(nodes, Subtree(nodes, root, depth, true, top), Errored), Subtree(nodes, root, depth, true, top))
  {
    forall x, c | x in Subtree(nodes, root, depth, true, top) && c in nodes[x].children && Counts(nodes, true, c)
      ensures c in Subtree(nodes, root, depth, true, top)
    {
      ClosureIsClosed(nodes, root, depth, top, x, c);
    }
  }

  lemma WithStateUnion(nodes: map<Id, Node>, a: set<Id>, b: set<Id>, state: State)
    ensures WithState(WithState(nodes, a, state), b, state) == WithState(nodes, a + b, state)
  {
  }

  lemma NothingMarked(nodes: map<Id, Node>)
    ensures WithState(nodes, Ids([]), Errored) == nodes && Ids([]) == {} && NoDup([]) && NoPendingChild(nodes, {})
  {
  }

  /** What marking a node and its closure does, in one place. */
  lemma ErrorSpreads(nodes: map<Id, Node>, root: Id, depth: map<Id, nat>, statusToNode: map<Id, Id>, node: Id)
    requires Linked(nodes, root, depth) && Indexed(nodes, statusToNode) && node in nodes
    ensures var marked := WithState(nodes, {node}, Errored);
            && Linked(marked, root, depth) && Indexed(marked, statusToNode) && node in marked && Ids([node]) == {node} && NoDup([node])
            && Subtree(marked, root, depth, true, node) == Subtree(nodes, root, depth, true, node)
    ensures var closure := Subtree(nodes, root, depth, true, node);
            var all := WithState(nodes, closure, Errored);
            && Linked(all, root, depth) && Indexed(all, statusToNode) && NoPendingChild(all, closure)
  {
    assert Ids([node]) == {node} && NoDup([node]) && node in WithState(nodes, {node}, Errored);
    hide Linked, Indexed, Subtree, NoPendingChild, WithState, Ids, NoDup;
    StatesDoNotMatter(nodes, root, depth, statusToNode, {node}, Errored);
    SameClosure(nodes, root, depth, node, Errored);
    StatesDoNotMatter(nodes, root, depth, statusToNode, Subtree(nodes, root, depth, true, node), Errored);
    MarkedIsClosed(nodes, root, depth, node);
  }

  lemma IdsConcat(a: seq<Id>, b: seq<Id>)
    ensures Ids(a + b) == Ids(a) + Ids(b) && (a == [] ==> a + b == b)
  {
    assert forall x :: x in a + b <==> x in a || x in b;
  }

  lemma NextIds(s: seq<Id>, n: nat)
    requires n < |s|
    ensures Ids(s[..n + 1]) == Ids(s[..n]) + {s[n]}
  {
    assert s[..n + 1] == s[..n] + [s[n]];
  }

  /** A pending child of a node in the closure is in the closure. */
  lemma ClosureIsClosed(nodes: map<Id, Node>, root: Id, depth: map<Id, nat>, top: Id, x: Id, c: Id)
    requires Linked(nodes, root, depth) && x in Subtree(nodes, root, depth, true, top)
    requires c in nodes[x].children && Counts(nodes, true, c)
    ensures c in Subtree(nodes, root, depth, true, top)
  {
    assert HasChildren(nodes, x) && HasParent(nodes, root, depth, c);
  }

  ghost function UnsettledIn(nodes: map<Id, Node>, s: set<Id>): set<Id> {
    set x | x in s && x in nodes && Unsettled(nodes[x].state)
  }

  // ---------------------------------------------------------------- the tree

  class MessageTree {
    const rootId: Id
    const scheduler: Scheduler
    var nodes: map<Id, Node>
    var statusToNode: map<Id, Id>
    ghost var depth: map<Id, nat>

    /** Fresh ids are all a tree needs to keep its shape. */
    ghost predicate Shape()
      reads this
    {
      Linked(nodes, rootId, depth) && Indexed(nodes, statusToNode)
    }

    ghost predicate Valid()
      reads this, scheduler, scheduler.queue
    {
      Shape() && scheduler.Valid()
    }

    constructor (root: Id, status: Id)
      ensures Valid() && fresh(scheduler) && fresh(scheduler.queue) && rootId == root
      ensures nodes == map[root := Node(status, Pending, None, [])] && statusToNode == map[status := root]
    {
      rootId := root;
      nodes := map[root := Node(status, Pending, None, [])];
      statusToNode := map[status := root];
      scheduler := new Scheduler();
      depth := map[root := 0];
    }

    /** A tree read back from its stored nodes; the index is built anew, the queue starts empty. */
    constructor FromDict(root: Id, data: map<Id, Node>, ghost levels: map<Id, nat>)
      requires root in data
      ensures rootId == root && nodes == data && depth == levels
      ensures forall index :: Indexed(data, index) ==> statusToNode == index
      ensures fresh(scheduler) && fresh(scheduler.queue) && scheduler.Valid()
    {
      rootId := root;
      var read, index := ReadNodes(root, data);
      nodes, statusToNode := read, index;
      scheduler := new Scheduler();
      depth := levels;
    }

    /** False for the error raised when the parent is not in the tree. The node goes under its parent,
        and the tree stays a tree exactly when both its ids are new to it. */
    method AddNode(node: Id, status: Id, parent: Id) returns (ok: bool)
      requires Shape()
      modifies `nodes, `statusToNode, `depth
      ensures ok == (parent in old(nodes))
      ensures !ok ==> unchanged(this) && Shape()
      ensures ok ==> nodes == Grown(old(nodes), node, status, parent) && statusToNode == old(statusToNode)[status := node]
      ensures ok ==> (Shape() <==> node !in old(nodes) && status !in old(statusToNode))
    {
      hide Linked, Indexed, Grown, NoDup, HasParent, HasChildren;
      if parent !in nodes {
        return false;
      }
      ghost var level := GrowReady(nodes, statusToNode, rootId, depth, node, status, parent);
      var placed := nodes[node := Node(status, Pending, Some(parent), [])];
      nodes := placed;
      statusToNode := statusToNode[status := node];
      nodes := placed[parent := placed[parent].(children := placed[parent].children + [node])];
      depth := depth[node := level];
      ok := true;
    }

    /** The node that owns a status message. */
    function FindByStatus(status: Id): (r: Option<Id>)
      reads this
      ensures Shape() && r.Some? ==> r.value in nodes && nodes[r.value].status == status
      ensures Shape() && r.None? ==> forall x :: x in nodes ==> nodes[x].status != status
    {
      if status in statusToNode && statusToNode[status] in nodes then Some(statusToNode[status]) else None
    }

    /** A subtree goes: exactly its nodes leave the tree, and exactly their statuses the index. What is
        left is a tree unless the root was removed. */
    method RemoveBranch(branch: Id) returns (removed: seq<Id>)
      requires Shape()
      modifies `nodes, `statusToNode
      ensures branch !in old(nodes) ==> removed == [] && nodes == old(nodes) && statusToNode == old(statusToNode)
      ensures branch in old(nodes) ==>
                && NoDup(removed) && Ids(removed) == Subtree(old(nodes), rootId, depth, false, branch)
                && nodes == Pruned(old(nodes), Ids(removed), branch)
                && statusToNode == StatusesWithout(old(statusToNode), Ids(removed))
      ensures Shape() <==> branch != rootId
    {
      if branch in nodes {
        removed := CutOff(branch);
      } else {
        RootIsThere();
        removed := [];
      }
    }

    method CutOff(branch: Id) returns (removed: seq<Id>)
      requires Shape() && branch in nodes
      modifies `nodes, `statusToNode
      ensures NoDup(removed) && Ids(removed) == Subtree(old(nodes), rootId, depth, false, branch)
      ensures nodes == Pruned(old(nodes), Ids(removed), branch) && statusToNode == StatusesWithout(old(statusToNode), Ids(removed))
      ensures Shape() <==> branch != rootId
    {
      ghost var gone := Subtree(nodes, rootId, depth, false, branch);
      ghost var was, index := nodes, statusToNode;
      PruneKeepsShape(nodes, statusToNode, rootId, depth, branch, gone);
      PruneEnd(nodes, branch, gone);
      hide Linked, Indexed, Subtree, Pruned, StatusesWithout, Ids, NoDup;
      var parent := nodes[branch].parent;
      var all := GetDescendants(branch);
      removed := DropAll(all, branch);
      assert nodes == was - gone;
      if parent.Some? {
        nodes := nodes[parent.value := nodes[parent.value].(children := Without(nodes[parent.value].children, {branch}))];
      }
      assert nodes == Pruned(was, gone, branch);
    }

    lemma RootIsThere()
      requires Shape()
      ensures rootId in nodes
    {
    }

    method DropAll(all: seq<Id>, ghost branch: Id) returns (removed: seq<Id>)
      requires Shape() && NoDup(all) && Ids(all) == Subtree(nodes, rootId, depth, false, branch)
      modifies `nodes, `statusToNode
      ensures removed == all && nodes == old(nodes) - Ids(all) && statusToNode == StatusesWithout(old(statusToNode), Ids(all))
    {
      removed := [];
      ghost var was, index := nodes, statusToNode;
      PruneStart(nodes, statusToNode);
      hide Linked, Indexed, Subtree, StatusesWithout, Ids, NoDup;
      for n := 0 to |all|
        invariant nodes == was - Ids(all[..n]) && removed == all[..n]
        invariant statusToNode == StatusesWithout(index, Ids(all[..n]))
      {
        PruneNext(was, index, rootId, depth, branch, all, n);
        removed := removed + [all[n]];
        statusToNode := statusToNode - {nodes[all[n]].status};
        nodes := nodes - {all[n]};
      }
      assert all[..|all|] == all;
    }

    /** The ids of a subtree, each once. */
    method GetDescendants(top: Id) returns (result: seq<Id>)
      requires Shape()
      ensures top !in nodes ==> result == []
      ensures top in nodes ==> NoDup(result) && Ids(result) == Subtree(nodes, rootId, depth, false, top)
    {
      if top !in nodes {
        return [];
      }
      result := [];
      var stack := [top];
      FrontierStart(nodes, false, top);
      while stack != []
        invariant Frontier(nodes, false, top, result, stack)
        decreases |nodes| - |result|
      {
        FrontierNext(nodes, rootId, depth, false, top, result, stack);
        var nid := stack[|stack| - 1];
        assert HasChildren(nodes, nid);
        AllKids(nodes, nodes[nid].children);
        stack := stack[..|stack| - 1];
        result := result + [nid];
        stack := stack + nodes[nid].children;
        FrontierSize(nodes, false, top, result, stack);
      }
      FrontierIsSubtree(nodes, rootId, depth, false, top, result);
    }

    method PendingOf(children: seq<Id>) returns (pending: seq<Id>)
      ensures pending == Kids(nodes, true, children)
    {
      pending := [];
      for n := 0 to |children|
        invariant pending == Kids(nodes, true, children[..n])
      {
        assert children[..n + 1][..n] == children[..n];
        if children[n] in nodes && nodes[children[n]].state == Pending {
          pending := pending + [children[n]];
        }
      }
      assert children[..|children|] == children;
    }

    /** The nodes below `top` that pending nodes alone connect to it, each once. */
    method GetPendingChildren(top: Id) returns (pending: seq<Id>)
      requires Shape()
      ensures top !in nodes ==> pending == []
      ensures top in nodes ==> NoDup([top] + pending) && Ids([top] + pending) == Subtree(nodes, rootId, depth, true, top)
    {
      pending := [];
      var stack := [top];
      ghost var done := [];
      if top in nodes {
        FrontierStart(nodes, true, top);
      }
      while stack != []
        invariant top !in nodes ==> pending == [] && done == [] && (stack == [] || stack == [top])
        invariant top in nodes ==> Frontier(nodes, true, top, done, stack) && Collected(top, pending, done, stack)
        decreases |nodes| - |done|, |stack|
      {
        var current := stack[|stack| - 1];
        ghost var was := stack;
        stack := stack[..|stack| - 1];
        if current !in nodes {
          CurrentIsANode(nodes, true, top, done, was);
          continue;
        }
        FrontierNext(nodes, rootId, depth, true, top, done, was);
        var kids := PendingOf(nodes[current].children);
        assert HasChildren(nodes, current);
        CollectedNext(nodes, top, pending, done, was, nodes[current].children);
        pending := pending + kids;
        stack := stack + kids;
        done := done + [current];
        FrontierSize(nodes, true, top, done, stack);
      }
      if top in nodes {
        FrontierIsSubtree(nodes, rootId, depth, true, top, done);
        assert done + [] == done;
      }
    }

    /** One node's state is set, if the node is there. */
    method UpdateState(node: Id, state: State)
      modifies `nodes
      ensures nodes == WithState(old(nodes), {node}, state)
    {
      if node in nodes {
        nodes := nodes[node := nodes[node].(state := state)];
      }
    }

    /** A node fails, and with `propagate` so does every pending node that pending nodes connect to
        it; each is reported once, and no node that failed keeps a pending child. */
    method MarkNodeError(node: Id, propagate: bool) returns (affected: seq<Id>)
      requires Shape()
      modifies `nodes
      ensures Shape() && NoDup(affected) && nodes == WithState(old(nodes), Ids(affected), Errored)
      ensures Ids(affected) == if node !in old(nodes) then {}
                               else if !propagate then {node}
                               else Subtree(old(nodes), rootId, depth, true, node)
      ensures propagate ==> NoPendingChild(nodes, Ids(affected))
    {
      ghost var was := nodes;
      affected := [];
      NothingMarked(nodes);
      hide Linked, Indexed, Subtree, NoPendingChild, WithState, Ids, NoDup;
      if node !in nodes {
        if propagate {
          affected := GetPendingChildren(node);
        }
        return;
      }
      ErrorSpreads(nodes, rootId, depth, statusToNode, node);
      UpdateState(node, Errored);
      affected := [node];
      if propagate {
        var pending := GetPendingChildren(node);
        MarkEach(pending);
        WithStateUnion(was, {node}, Ids(pending), Errored);
        IdsConcat([node], pending);
        affected := affected + pending;
      }
    }

    method MarkEach(which: seq<Id>)
      modifies `nodes
      ensures nodes == WithState(old(nodes), Ids(which), Errored)
    {
      NothingMarked(nodes);
      hide WithState, Ids;
      for n := 0 to |which|
        invariant nodes == WithState(old(nodes), Ids(which[..n]), Errored)
      {
        UpdateState(which[n], Errored);
        WithStateUnion(old(nodes), Ids(which[..n]), {which[n]}, Errored);
        NextIds(which, n);
      }
      assert which[..|which|] == which;
    }

    method CancelUnsettled(nid: Id)
      requires Valid()
      modifies `nodes, scheduler`tasks, scheduler`log, scheduler.queue
      ensures Valid() && nodes == WithState(old(nodes), {nid}, Errored) && scheduler.log.lost == old(scheduler.log).lost
      ensures scheduler.queue.deque == Without(old(scheduler.queue.deque), {nid})
      ensures OnlyAsked(old(scheduler.tasks), scheduler.tasks)
      ensures scheduler.currentNode != Some(nid) ==> scheduler.tasks == old(scheduler.tasks)
      ensures scheduler.currentNode == Some(nid) && !scheduler.log.lost ==>
                Asked(old(scheduler.tasks), scheduler.tasks, scheduler.currentTask, nid)
    {
      StatesDoNotMatter(nodes, rootId, depth, statusToNode, {nid}, Errored);
      hide Linked, Indexed, WithState, Without, OnlyAsked, Asked, Exclusive, InOrder, Ids, NoDup;
      scheduler.CancelInBranch(nid);
      UpdateState(nid, Errored);
    }

    /** The unsettled nodes of a subtree fail, in whatever order the subtree is gone through: they are
        reported once each, leave the queue, and the running task is asked to stop if it is theirs. */
    method CancelBranch(branch: Id) returns (cancelled: seq<Id>)
      requires Valid()
      modifies `nodes, scheduler`tasks, scheduler`log, scheduler.queue
      ensures Valid() && NoDup(cancelled) && nodes == WithState(old(nodes), Ids(cancelled), Errored)
      ensures Ids(cancelled) == if branch in old(nodes)
                                then UnsettledIn(old(nodes), Subtree(old(nodes), rootId, depth, false, branch)) else {}
      ensures branch in old(nodes) ==> UnsettledIn(nodes, Subtree(old(nodes), rootId, depth, false, branch)) == {}
      ensures scheduler.queue.deque == Without(old(scheduler.queue.deque), Ids(cancelled))
      ensures Stopped(old(scheduler.tasks), scheduler.tasks, scheduler.currentNode, scheduler.currentTask, cancelled, scheduler.log.lost)
    {
      hide Linked, Indexed, Subtree, WithState, Ids, NoDup, UnsettledIn, Without, OnlyAsked, Asked, Exclusive, InOrder, Cancelled, Stopped;
      var all := GetDescendants(branch);
      var left := Ids(all);
      cancelled := [];
      ghost var was, waiting, before := nodes, scheduler.queue.deque, scheduler.tasks;
      ghost var lost := scheduler.log.lost;
      CancelStart(was, waiting, before, left);
      while left != {}
        invariant Valid() && left <= Ids(all) && scheduler.log.lost == lost
        invariant Cancelled(was, nodes, Ids(all) - left, cancelled)
        invariant scheduler.queue.deque == Without(waiting, Ids(cancelled))
        invariant Stopped(before, scheduler.tasks, scheduler.currentNode, scheduler.currentTask, cancelled, lost)
        decreases |left|
      {
        var nid :| nid in left;
        CancelNext(was, nodes, Ids(all), left, cancelled, nid);
        left := left - {nid};
        if nid in nodes && Unsettled(nodes[nid].state) {
          ghost var tasks := scheduler.tasks;
          CancelUnsettled(nid);
          CancelledOne(waiting, cancelled, nid, before, tasks, scheduler.tasks, scheduler.currentNode, scheduler.currentTask, lost);
          cancelled := cancelled + [nid];
        }
      }
      CancelEnd(was, nodes, Ids(all), cancelled);
    }

    /** One unsettled node fails: its task is asked to stop if it is the current one, and it leaves the queue. */
    method CancelNode(node: Id) returns (cancelled: seq<Id>)
      requires Valid()
      modifies `nodes, scheduler`tasks, scheduler`log, scheduler.queue
      ensures Valid() && nodes == WithState(old(nodes), Ids(cancelled), Errored)
      ensures cancelled == if node in old(nodes) && old(nodes)[node].state !in {Completed, Errored} then [node] else []
      ensures scheduler.queue.deque == Without(old(scheduler.queue.deque), Ids(cancelled))
      ensures Stopped(old(scheduler.tasks), scheduler.tasks, scheduler.currentNode, scheduler.currentTask, cancelled, scheduler.log.lost)
    {
      hide Linked, Indexed, WithState, Without, OnlyAsked, Asked, Exclusive, InOrder, Ids, NoDup;
      CancelStart(nodes, scheduler.queue.deque, scheduler.tasks, {});
      NothingMarked(nodes);
      OneId(node);
      if node !in nodes || !Unsettled(nodes[node].state) {
        return [];
      }
      StatesDoNotMatter(nodes, rootId, depth, statusToNode, {node}, Errored);
      scheduler.CancelNode(node, true);
      UpdateState(node, Errored);
      cancelled := [node];
    }

    /** The whole tree is cancelled. Reported are the current node, if its task was still to be stopped
        and it was unsettled, and the nodes drained from the queue, in order; nothing unsettled is
        left. `stoppable` says that there is a current task that has not finished. */
    method CancelTree(stoppable: bool) returns (cancelled: seq<Id>)
      requires Valid()
      modifies `nodes, scheduler`isProcessing, scheduler`currentNode, scheduler`tasks, scheduler`log, scheduler.queue
      ensures Shape() && (Valid() <==> !old(Working(scheduler.tasks, scheduler.currentTask)))
      ensures nodes == WithState(old(nodes), Ids(cancelled) + UnsettledIn(old(nodes), old(nodes).Keys), Errored)
      ensures cancelled == ActiveNow(old(nodes), old(scheduler.currentNode), stoppable)
                           + Kids(old(nodes), false, old(scheduler.queue.deque))
      ensures UnsettledIn(nodes, nodes.Keys) == {}
      ensures scheduler.queue.deque == [] && !scheduler.isProcessing && OnlyAsked(old(scheduler.tasks), scheduler.tasks)
      ensures StopsCurrent(old(scheduler.tasks), scheduler.tasks, scheduler.currentTask)
      ensures old(scheduler.currentNode).Some? && !old(scheduler.log).lost ==>
                Asked(old(scheduler.tasks), scheduler.tasks, scheduler.currentTask, old(scheduler.currentNode).value)
    {
      ghost var was := nodes;
      var current := scheduler.currentNode;
      cancelled := ActiveNow(nodes, current, stoppable);
      hide Linked, Indexed, WithState, OnlyAsked, StopsCurrent, Asked, Exclusive, InOrder, Ids, NoDup, UnsettledIn, Kids;
      MarkEach(cancelled);
      var drained := scheduler.CancelTree();
      var queued := Present(drained);
      MarkEach(queued);
      var stale := StaleNodes();
      MarkEach(stale);
      SameKids(was, cancelled, drained);
      AllMarked(was, cancelled, queued, stale);
      StatesDoNotMatter(was, rootId, depth, statusToNode, Ids(cancelled + queued) + UnsettledIn(was, was.Keys), Errored);
      cancelled := cancelled + queued;
    }

    method Present(ids: seq<Id>) returns (present: seq<Id>)
      ensures present == Kids(nodes, false, ids)
    {
      present := [];
      for n := 0 to |ids|
        invariant present == Kids(nodes, false, ids[..n])
      {
        assert ids[..n + 1][..n] == ids[..n];
        if ids[n] in nodes {
          present := present + [ids[n]];
        }
      }
      assert ids[..|ids|] == ids;
    }

    method StaleNodes() returns (stale: seq<Id>)
      ensures Ids(stale) == UnsettledIn(nodes, nodes.Keys)
    {
      stale := [];
      var left := nodes.Keys;
      while left != {}
        invariant left <= nodes.Keys && Ids(stale) == UnsettledIn(nodes, nodes.Keys - left)
        decreases |left|
      {
        var nid :| nid in left;
        IdsConcat(stale, [nid]);
        OneId(nid);
        if Unsettled(nodes[nid].state) {
          stale := stale + [nid];
        }
        left := left - {nid};
      }
      assert nodes.Keys - left == nodes.Keys;
    }
  }

  /** The current node, if it is to be stopped and unsettled. */
  function ActiveNow(nodes: map<Id, Node>, current: Option<Id>, stoppable: bool): seq<Id> {
    if stoppable && current.Some? && current.value in nodes && Unsettled(nodes[current.value].state) then [current.value] else []
  }

  predicate AllSettled(nodes: map<Id, Node>) {
    forall x :: x in nodes ==> nodes[x].state == Completed || nodes[x].state == Errored
  }

  /** With nothing left unsettled every node is completed or in error. */
  lemma NoneUnsettled(nodes: map<Id, Node>)
    ensures UnsettledIn(nodes, nodes.Keys) == {} <==> AllSettled(nodes)
  {
    if !AllSettled(nodes) {
      var x :| x in nodes && nodes[x].state != Completed && nodes[x].state != Errored;
      assert x in UnsettledIn(nodes, nodes.Keys);
    }
  }

  /** Reported are the current node, if its task was still to be stopped and it was unsettled, and all that
      waited and are still there. */
  lemma Reported(nodes: map<Id, Node>, current: Option<Id>, stoppable: bool, waiting: seq<Id>)
    ensures forall x :: x in ActiveNow(nodes, current, stoppable) + Kids(nodes, false, waiting) <==>
              (stoppable && current == Some(x) && x in nodes && Unsettled(nodes[x].state)) || (x in waiting && x in nodes)
  {
    KidsAre(nodes, false, waiting);
    hide Kids;
  }

  lemma OneId(x: Id)
    ensures Ids([x]) == {x}
  {
  }

  lemma {:induction false} SameKids(nodes: map<Id, Node>, marked: seq<Id>, s: seq<Id>)
    ensures Kids(WithState(nodes, Ids(marked), Errored), false, s) == Kids(nodes, false, s)
  {
    if s != [] {
      SameKids(nodes, marked, s[..|s| - 1]);
    }
  }

  /** Marking in three rounds, the last one whatever is still unsettled. */
  lemma AllMarked(was: map<Id, Node>, a: seq<Id>, b: seq<Id>, c: seq<Id>)
    requires var marked := WithState(WithState(was, Ids(a), Errored), Ids(b), Errored); Ids(c) == UnsettledIn(marked, marked.Keys)
    ensures WithState(WithState(WithState(was, Ids(a), Errored), Ids(b), Errored), Ids(c), Errored)
            == WithState(was, Ids(a + b) + UnsettledIn(was, was.Keys), Errored)
    ensures var all := WithState(was, Ids(a + b) + UnsettledIn(was, was.Keys), Errored); UnsettledIn(all, all.Keys) == {}
  {
    IdsConcat(a, b);
    hide Ids;
  }

  /** Every node met so far is listed, each once. */
  ghost predicate Collected(top: Id, pending: seq<Id>, done: seq<Id>, stack: seq<Id>) {
    NoDup([top] + pending) && forall x :: x in [top] + pending <==> x in done + stack
  }

  lemma CurrentIsANode(nodes: map<Id, Node>, only: bool, top: Id, done: seq<Id>, stack: seq<Id>)
    requires stack != []
    ensures Frontier(nodes, only, top, done, stack) ==> stack[|stack| - 1] in nodes
  {
    assert stack[|stack| - 1] in done + stack;
  }

  lemma CollectedNext(nodes: map<Id, Node>, top: Id, pending: seq<Id>, done: seq<Id>, stack: seq<Id>, children: seq<Id>)
    requires stack != [] && Collected(top, pending, done, stack) && NoDup(children)
    requires forall c :: c in Kids(nodes, true, children) ==> c !in done + stack
    ensures Collected(top, pending + Kids(nodes, true, children), done + [stack[|stack| - 1]],
                      stack[..|stack| - 1] + Kids(nodes, true, children))
  {
    var kids, x, rest := Kids(nodes, true, children), stack[|stack| - 1], stack[..|stack| - 1];
    KidsAre(nodes, true, children);
    assert stack == rest + [x];
    Split([top], pending);
    NoDupConcat([top] + pending, kids);
    assert [top] + (pending + kids) == ([top] + pending) + kids;
    assert forall y :: y in (done + [x]) + (rest + kids) <==> y in done + stack || y in kids;
  }

  // ---------------------------------------------------------------- reading a tree back

  /** The nodes read so far, and an index that answers with a node that has the status asked for. */
  ghost predicate Rebuilt(data: map<Id, Node>, seen: set<Id>, nodes: map<Id, Node>, index: map<Id, Id>) {
    && nodes == (map x | x in data && x in seen :: data[x])
    && (forall x :: x in seen && x in data ==> data[x].status in index)
    && (forall s :: s in index ==> index[s] in seen && index[s] in data && data[index[s]].status == s)
  }

  lemma RebuiltStart(data: map<Id, Node>, root: Id)
    requires root in data
    ensures Rebuilt(data, data.Keys - (data.Keys - {root}), map[root := data[root]], map[data[root].status := root])
  {
    assert data.Keys - (data.Keys - {root}) == {root};
  }

  lemma RebuiltNext(data: map<Id, Node>, seen: set<Id>, nodes: map<Id, Node>, index: map<Id, Id>, nid: Id)
    requires Rebuilt(data, seen, nodes, index) && nid in data
    ensures Rebuilt(data, seen + {nid}, nodes[nid := data[nid]], index[data[nid].status := nid])
  {
  }

  /** With an inverse to be had, the index read back is that inverse. */
  lemma RebuiltEnd(data: map<Id, Node>, nodes: map<Id, Node>, rebuilt: map<Id, Id>)
    requires Rebuilt(data, data.Keys, nodes, rebuilt)
    ensures nodes == data && forall index :: Indexed(data, index) ==> rebuilt == index
  {
  }

  /** The root is read first, the others in any order. */
  method ReadNodes(root: Id, data: map<Id, Node>) returns (nodes: map<Id, Node>, statusToNode: map<Id, Id>)
    requires root in data
    ensures nodes == data && forall index :: Indexed(data, index) ==> statusToNode == index
  {
    nodes := map[root := data[root]];
    statusToNode := map[data[root].status := root];
    var left := data.Keys - {root};
    RebuiltStart(data, root);
    hide Rebuilt, Indexed;
    while left != {}
      invariant left <= data.Keys && Rebuilt(data, data.Keys - left, nodes, statusToNode)
      decreases |left|
    {
      var nid :| nid in left;
      RebuiltNext(data, data.Keys - left, nodes, statusToNode, nid);
      assert data.Keys - (left - {nid}) == (data.Keys - left) + {nid};
      left := left - {nid};
      nodes := nodes[nid := data[nid]];
      statusToNode := statusToNode[data[nid].status := nid];
    }
    assert data.Keys - left == data.Keys;
    RebuiltEnd(data, nodes, statusToNode);
  }

  // ---------------------------------------------------------------- cancelling a branch

  /** The nodes of a branch gone through so far: those that were unsettled are reported and failed. */
  ghost predicate Cancelled(was: map<Id, Node>, now: map<Id, Node>, seen: set<Id>, cancelled: seq<Id>) {
    NoDup(cancelled) && Ids(cancelled) == UnsettledIn(was, seen) && now == WithState(was, Ids(cancelled), Errored)
  }

  /** The running task was asked to stop exactly if its node is among those cancelled. */
  ghost predicate Stopped(before: seq<Task>, now: seq<Task>, node: Option<Id>, current: Option<nat>, cancelled: seq<Id>, lost: bool) {
    && OnlyAsked(before, now)
    && ((node.None? || node.value !in cancelled) ==> now == before)
    && (node.Some? && node.value in cancelled && !lost ==> Asked(before, now, current, node.value))
  }

  lemma CancelStart(was: map<Id, Node>, waiting: seq<Id>, tasks: seq<Task>, all: set<Id>)
    ensures Cancelled(was, was, all - all, []) && Without(waiting, Ids([])) == waiting
    ensures forall node, current, lost :: Stopped(tasks, tasks, node, current, [], lost)
    ensures Ids([]) == {} && UnsettledIn(was, {}) == {}
  {
    WithoutFacts(waiting, Ids([]));
    assert Ids([]) == {};
  }

  lemma CancelNext(was: map<Id, Node>, now: map<Id, Node>, all: set<Id>, left: set<Id>, cancelled: seq<Id>, nid: Id)
    requires Cancelled(was, now, all - left, cancelled) && nid in left && left <= all
    ensures nid !in cancelled
    ensures if nid in now && Unsettled(now[nid].state)
            then Cancelled(was, WithState(now, {nid}, Errored), all - (left - {nid}), cancelled + [nid])
            else Cancelled(was, now, all - (left - {nid}), cancelled)
  {
    assert nid !in Ids(cancelled);
    assert all - (left - {nid}) == (all - left) + {nid};
    NoDupConcat(cancelled, [nid]);
    IdsConcat(cancelled, [nid]);
    WithStateUnion(was, Ids(cancelled), {nid}, Errored);
  }

  lemma CancelEnd(was: map<Id, Node>, now: map<Id, Node>, all: set<Id>, cancelled: seq<Id>)
    requires Cancelled(was, now, all - {}, cancelled)
    ensures NoDup(cancelled) && now == WithState(was, Ids(cancelled), Errored)
    ensures Ids(cancelled) == UnsettledIn(was, all) && UnsettledIn(now, all) == {}
  {
    assert all - {} == all;
  }

  lemma CancelledOne(waiting: seq<Id>, cancelled: seq<Id>, nid: Id, before: seq<Task>, tasks: seq<Task>, now: seq<Task>, node: Option<Id>, current: Option<nat>, lost: bool)
    requires nid !in cancelled && Stopped(before, tasks, node, current, cancelled, lost) && OnlyAsked(tasks, now)
    requires node != Some(nid) ==> now == tasks
    requires node == Some(nid) && !lost ==> Asked(tasks, now, current, nid)
    ensures Without(Without(waiting, Ids(cancelled)), {nid}) == Without(waiting, Ids(cancelled + [nid]))
    ensures Stopped(before, now, node, current, cancelled + [nid], lost)
  {
    IdsConcat(cancelled, [nid]);
    assert Ids([nid]) == {nid};
    WithoutTwice(waiting, Ids(cancelled), {nid});
    OnlyAskedAgain(before, tasks, now);
  }
}
