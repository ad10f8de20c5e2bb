/** Conversations as a user sees them: one list of live messages, oldest first, that says without any
    tree which messages a branch takes along and who an id stands for. */
module MessageLists {
  import opened Wrappers
  import opened TreeScheduler
  import opened MessageTrees

  /** A live message, the bot's message about it and the message it replies to. */
  datatype Message = Message(node: Id, status: Id, parent: Option<Id>)

  /** What a user can see of a run: the live messages, oldest first, and the ids cleared away. */
  datatype Conversations = Conversations(live: seq<Message>, gone: set<Id>)

  function LiveIds(live: seq<Message>): set<Id> {
    if live == [] then {} else LiveIds(live[..|live| - 1]) + {live[|live| - 1].node}
  }

  /** The branch: a message and, oldest first, everything that replies to a message of it. */
  function Doomed(live: seq<Message>, branch: Id): set<Id> {
    if live == [] then {} else
      var before, last := Doomed(live[..|live| - 1], branch), live[|live| - 1];
      if last.node == branch || (last.parent.Some? && last.parent.value in before) then before + {last.node} else before
  }

  function Kept(live: seq<Message>, doomed: set<Id>): seq<Message> {
    if live == [] then [] else
      Kept(live[..|live| - 1], doomed) + if live[|live| - 1].node in doomed then [] else [live[|live| - 1]]
  }

  function StatusIds(live: seq<Message>, doomed: set<Id>): set<Id> {
    set m | m in live && m.node in doomed :: m.status
  }

  /** Who a message id stands for. */
  function Answer(live: seq<Message>, msg: Id): Option<Id> {
    if live == [] then None else
      var last := live[|live| - 1];
      if msg == last.node || msg == last.status then Some(last.node) else Answer(live[..|live| - 1], msg)
  }

  // ---------------------------------------------------------------- the trees and the list agree

  ghost predicate Placed(m: Message, forest: map<Id, map<Id, Node>>, home: map<Id, Id>) {
    && m.node in home && home[m.node] in forest && m.node in forest[home[m.node]]
    && forest[home[m.node]][m.node].status == m.status && forest[home[m.node]][m.node].parent == m.parent
  }

  /** No message is there twice, and replies come after what they reply to. */
  ghost predicate Ordered(live: seq<Message>) {
    live != [] ==>
      var init, last := live[..|live| - 1], live[|live| - 1];
      Ordered(init) && last.node !in LiveIds(init) && (last.parent.Some? ==> last.parent.value in LiveIds(init))
  }

  ghost predicate Mirrors(live: seq<Message>, forest: map<Id, map<Id, Node>>, home: map<Id, Id>) {
    && Ordered(live)
    && (forall m :: m in live ==> Placed(m, forest, home))
    && (forall r, x :: r in forest && x in forest[r] ==> x in LiveIds(live))
  }

  ghost predicate RootedAt(nodes: map<Id, Node>, r: Id, depth: map<Id, nat>, home: map<Id, Id>) {
    Linked(nodes, r, depth) && forall x :: x in nodes ==> x in home && home[x] == r
  }

  ghost predicate Rooted(forest: map<Id, map<Id, Node>>, depths: map<Id, map<Id, nat>>, home: map<Id, Id>) {
    depths.Keys == forest.Keys && forall r :: r in forest ==> RootedAt(forest[r], r, depths[r], home)
  }

  ghost function StatusesOf(nodes: map<Id, Node>, which: set<Id>): set<Id> {
    set n | n in which && n in nodes :: nodes[n].status
  }

  /** A subtree is gone from its tree, or the tree is gone. */
  ghost function Felled(forest: map<Id, map<Id, Node>>, root: Option<Id>, branch: Id, which: set<Id>): map<Id, map<Id, Node>> {
    if root == None || root.value !in forest || branch !in forest[root.value] then forest
    else if branch == root.value then forest - {root.value}
    else forest[root.value := Pruned(forest[root.value], which, branch)]
  }

  lemma {:induction false} LiveIdsAre(live: seq<Message>, x: Id)
    ensures x in LiveIds(live) <==> exists m :: m in live && m.node == x
  {
    if live != [] {
      LiveIdsAre(live[..|live| - 1], x);
      assert live == live[..|live| - 1] + [live[|live| - 1]];
    }
  }

  lemma OneMore(live: seq<Message>, m: Message)
    ensures LiveIds(live + [m]) == LiveIds(live) + {m.node}
    ensures Ordered(live) && m.node !in LiveIds(live) && (m.parent.Some? ==> m.parent.value in LiveIds(live)) ==> Ordered(live + [m])
  {
    assert (live + [m])[..|live|] == live;
  }

  /** The trees as they were, but for one that holds a new message. */
  lemma GrownMirrors(live: seq<Message>, forest: map<Id, map<Id, Node>>, home: map<Id, Id>, m: Message, root: Id, nodes: map<Id, Node>)
    requires Mirrors(live, forest, home) && m.node !in home && m.status !in home
    requires m.parent.Some? ==> m.parent.value in LiveIds(live)
    requires m.node in nodes && nodes[m.node].status == m.status && nodes[m.node].parent == m.parent
    requires nodes.Keys == (if root in forest then forest[root].Keys else {}) + {m.node}
    requires root in forest ==> forall x :: x in forest[root] ==>
                nodes[x].status == forest[root][x].status && nodes[x].parent == forest[root][x].parent
    ensures Mirrors(live + [m], forest[root := nodes], home[m.node := root][m.status := root])
  {
    var after, homes := forest[root := nodes], home[m.node := root][m.status := root];
    LiveIdsAre(live, m.node);
    OneMore(live, m);
    hide Ordered, LiveIds;
    forall a | a in live + [m]
      ensures Placed(a, after, homes)
    {
      if a in live {
        assert Placed(a, forest, home);
      }
    }
  }

  lemma RootsHaveHomes(forest: map<Id, map<Id, Node>>, depths: map<Id, map<Id, nat>>, home: map<Id, Id>)
    requires Rooted(forest, depths, home)
    ensures forest.Keys <= home.Keys
  {
    assert forall r :: r in forest ==> RootedAt(forest[r], r, depths[r], home);
  }

  lemma CreatedMirrors(live: seq<Message>, forest: map<Id, map<Id, Node>>, depths: map<Id, map<Id, nat>>, home: map<Id, Id>, node: Id, status: Id)
    requires Mirrors(live, forest, home) && Rooted(forest, depths, home) && node !in home && status !in home
    ensures Mirrors(live + [Message(node, status, None)], forest[node := map[node := Node(status, Pending, None, [])]],
                    home[node := node][status := node])
  {
    RootsHaveHomes(forest, depths, home);
    GrownMirrors(live, forest, home, Message(node, status, None), node, map[node := Node(status, Pending, None, [])]);
  }

  lemma RepliedMirrors(live: seq<Message>, forest: map<Id, map<Id, Node>>, home: map<Id, Id>, root: Id, parent: Id, node: Id, status: Id)
    requires Mirrors(live, forest, home) && node !in home && status !in home
    requires root in forest && parent in forest[root] && node !in forest[root]
    ensures Mirrors(live + [Message(node, status, Some(parent))], forest[root := Grown(forest[root], node, status, parent)],
                    home[node := root][status := root])
  {
    GrownMirrors(live, forest, home, Message(node, status, Some(parent)), root, Grown(forest[root], node, status, parent));
  }

  lemma NothingDoomed(live: seq<Message>, branch: Id)
    requires branch !in LiveIds(live)
    ensures Doomed(live, branch) == {}
  {
  }

  /** How messages link up, seen from one tree: replies stay in the tree of what they reply to. */
  ghost predicate Within(m: Message, nodes: map<Id, Node>) {
    if m.node in nodes then nodes[m.node].parent == m.parent else m.parent.Some? ==> m.parent.value !in nodes
  }

  lemma AllWithin(live: seq<Message>, forest: map<Id, map<Id, Node>>, depths: map<Id, map<Id, nat>>, home: map<Id, Id>, root: Id)
    requires Mirrors(live, forest, home) && Rooted(forest, depths, home) && root in forest
    ensures forall m :: m in live ==> Within(m, forest[root])
  {
    forall m | m in live
      ensures Within(m, forest[root])
    {
      var r := home[m.node];
      assert Placed(m, forest, home) && RootedAt(forest[r], r, depths[r], home) && RootedAt(forest[root], root, depths[root], home);
      assert HasParent(forest[r], r, depths[r], m.node);
    }
  }

  /** Reading the list from the oldest message on finds the subtree that the parent links give. */
  lemma {:induction false} DoomedIsSubtree(live: seq<Message>, nodes: map<Id, Node>, root: Id, depth: map<Id, nat>, branch: Id)
    requires Linked(nodes, root, depth) && branch in nodes && Ordered(live) && forall m :: m in live ==> Within(m, nodes)
    ensures forall x :: x in Doomed(live, branch) <==>
              x in LiveIds(live) && x in nodes && Below(nodes, root, depth, false, x, branch)
  {
    if live != [] {
      var init, last := live[..|live| - 1], live[|live| - 1];
      DoomedIsSubtree(init, nodes, root, depth, branch);
      assert Within(last, nodes);
      if last.node in nodes {
        assert HasParent(nodes, root, depth, last.node);
      }
    }
  }

  lemma KeptNext(init: seq<Message>, last: Message, doomed: set<Id>)
    ensures Kept([], doomed) == []
    ensures Kept(init + [last], doomed) == if last.node in doomed then Kept(init, doomed) else Kept(init, doomed) + [last]
  {
    assert (init + [last])[..|init|] == init;
  }

  lemma {:induction false} KeptAre(live: seq<Message>, doomed: set<Id>, m: Message)
    ensures m in Kept(live, doomed) <==> m in live && m.node !in doomed
  {
    if live != [] {
      var init, last := live[..|live| - 1], live[|live| - 1];
      KeptAre(init, doomed, m);
      KeptNext(init, last, doomed);
      assert live == init + [last];
      hide Kept;
    }
  }

  lemma {:induction false} KeptIds(live: seq<Message>, doomed: set<Id>)
    ensures LiveIds(Kept(live, doomed)) == LiveIds(live) - doomed
  {
    if live != [] {
      var init, last := live[..|live| - 1], live[|live| - 1];
      KeptIds(init, doomed);
      KeptNext(init, last, doomed);
      assert live == init + [last];
      OneMore(Kept(init, doomed), last);
      assert LiveIds(live) == LiveIds(init) + {last.node};
      hide Kept, LiveIds, Ordered;
    }
  }

  /** No message outside replies to one that is doomed. */
  ghost predicate CutClean(live: seq<Message>, doomed: set<Id>) {
    forall m :: m in live && m.node !in doomed && m.parent.Some? ==> m.parent.value !in doomed
  }

  lemma {:induction false} KeptIsOrdered(live: seq<Message>, doomed: set<Id>)
    requires Ordered(live) && CutClean(live, doomed)
    ensures Ordered(Kept(live, doomed))
  {
    if live == [] {
      assert Kept(live, doomed) == [];
    } else {
      var init, last := live[..|live| - 1], live[|live| - 1];
      assert last in live && forall m :: m in init ==> m in live;
      KeptIsOrdered(init, doomed);
      KeptIsOrderedNext(init, last, doomed);
      assert live == init + [last];
    }
  }

  lemma KeptIsOrderedNext(init: seq<Message>, last: Message, doomed: set<Id>)
    requires Ordered(Kept(init, doomed)) && last.node !in LiveIds(init)
    requires last.node in doomed || (last.parent.Some? ==> last.parent.value in LiveIds(init) - doomed)
    ensures Ordered(Kept(init + [last], doomed))
  {
    KeptIds(init, doomed);
    KeptNext(init, last, doomed);
    OneMore(Kept(init, doomed), last);
    hide Kept, LiveIds, Ordered;
  }

  /** A reply outside the branch replies to nothing in it. */
  lemma StaysOutside(live: seq<Message>, nodes: map<Id, Node>, root: Id, depth: map<Id, nat>, branch: Id)
    requires Linked(nodes, root, depth) && branch in nodes && forall m :: m in live ==> Within(m, nodes)
    ensures CutClean(live, Subtree(nodes, root, depth, false, branch))
  {
    forall m | m in live && m.node !in Subtree(nodes, root, depth, false, branch) && m.parent.Some?
      ensures m.parent.value !in Subtree(nodes, root, depth, false, branch)
    {
      assert Within(m, nodes);
      if m.node in nodes {
        StaysPut(nodes, root, depth, branch, m.node);
      }
    }
  }

  /** The messages of a branch are the subtree, and the rest of the list stands by itself. */
  lemma BranchOfList(live: seq<Message>, forest: map<Id, map<Id, Node>>, depths: map<Id, map<Id, nat>>, home: map<Id, Id>, root: Id, branch: Id)
    requires Mirrors(live, forest, home) && Rooted(forest, depths, home) && root in forest && branch in forest[root]
    requires RootedAt(forest[root], root, depths[root], home)
    ensures Doomed(live, branch) == Subtree(forest[root], root, depths[root], false, branch)
    ensures CutClean(live, Doomed(live, branch)) && (branch == root ==> forest[root].Keys <= Doomed(live, branch))
  {
    hide Linked, Ordered, Doomed, LiveIds, Below, CutClean, Within, Placed;
    var nodes, doomed := forest[root], Doomed(live, branch);
    AllWithin(live, forest, depths, home, root);
    DoomedIsSubtree(live, nodes, root, depths[root], branch);
    StaysOutside(live, nodes, root, depths[root], branch);
    assert forall x :: x in nodes ==> x in LiveIds(live);
    assert doomed == Subtree(nodes, root, depths[root], false, branch);
    if branch == root {
      forall x | x in nodes
        ensures x in doomed
      {
        AllUnderRoot(nodes, root, depths[root], x);
      }
    }
  }

  /** Clearing a branch fells the messages the list loses. */
  lemma FelledMirrors(live: seq<Message>, forest: map<Id, map<Id, Node>>, depths: map<Id, map<Id, nat>>, home: map<Id, Id>, root: Id, branch: Id)
    requires Mirrors(live, forest, home) && Rooted(forest, depths, home) && root in forest && branch in forest[root]
    requires RootedAt(forest[root], root, depths[root], home)
    ensures Doomed(live, branch) == Subtree(forest[root], root, depths[root], false, branch)
    ensures Mirrors(Kept(live, Doomed(live, branch)), Felled(forest, Some(root), branch, Doomed(live, branch)), home)
    ensures StatusesOf(forest[root], Doomed(live, branch)) == StatusIds(live, Doomed(live, branch))
  {
    hide Linked, Ordered, Doomed, Kept, LiveIds, Subtree, StatusesOf, StatusIds, Rooted, CutClean, Felled, RootedAt, Placed, Mirrors;
    var doomed := Doomed(live, branch);
    BranchOfList(live, forest, depths, home, root, branch);
    HomesApart(forest, depths, home);
    DoomedAtHome(live, forest, depths, home, root, branch);
    SameStatuses(live, forest, home, root, doomed);
    RestMirrors(live, forest, home, root, branch, doomed);
  }

  lemma DoomedAtHome(live: seq<Message>, forest: map<Id, map<Id, Node>>, depths: map<Id, map<Id, nat>>, home: map<Id, Id>, root: Id, branch: Id)
    requires Rooted(forest, depths, home) && root in forest && RootedAt(forest[root], root, depths[root], home)
    requires Doomed(live, branch) == Subtree(forest[root], root, depths[root], false, branch)
    requires forall r, x :: r in forest && x in forest[r] ==> x in home && home[x] == r
    ensures forall x :: x in Doomed(live, branch) ==> x in forest[root] && x in home && home[x] == root
  {
    hide Linked, Below, Doomed, Rooted;
  }

  /** What is left of the list and of the trees agree. */
  lemma RestMirrors(live: seq<Message>, forest: map<Id, map<Id, Node>>, home: map<Id, Id>, root: Id, branch: Id, doomed: set<Id>)
    requires Mirrors(live, forest, home) && root in forest && branch in forest[root] && CutClean(live, doomed)
    requires branch == root ==> forest[root].Keys <= doomed
    requires forall x :: x in doomed ==> x in home && home[x] == root
    requires forall r, x :: r in forest && x in forest[r] ==> x in home && home[x] == r
    ensures Mirrors(Kept(live, doomed), Felled(forest, Some(root), branch, doomed), home)
  {
    KeptIsOrdered(live, doomed);
    KeptIds(live, doomed);
    hide Ordered, Kept, LiveIds, CutClean, Felled, Placed;
    forall m | m in Kept(live, doomed)
      ensures Placed(m, Felled(forest, Some(root), branch, doomed), home)
    {
      KeptAre(live, doomed, m);
      StaysPlaced(m, forest, home, root, branch, doomed);
    }
    OthersAreListed(live, forest, home, root, branch, doomed);
  }

  lemma OthersAreListed(live: seq<Message>, forest: map<Id, map<Id, Node>>, home: map<Id, Id>, root: Id, branch: Id, doomed: set<Id>)
    requires root in forest && branch in forest[root] && (forall x :: x in doomed ==> x in home && home[x] == root)
    requires forall r, x :: r in forest && x in forest[r] ==> x in home && home[x] == r
    requires (forall r, x :: r in forest && x in forest[r] ==> x in LiveIds(live)) && LiveIds(Kept(live, doomed)) == LiveIds(live) - doomed
    ensures var after := Felled(forest, Some(root), branch, doomed);
            forall r, x :: r in after && x in after[r] ==> x in LiveIds(Kept(live, doomed))
  {
    hide Felled, Kept, LiveIds;
    var after := Felled(forest, Some(root), branch, doomed);
    forall r, x | r in after && x in after[r]
      ensures x in LiveIds(Kept(live, doomed))
    {
      OthersStand(forest, home, root, branch, doomed, r, x);
    }
  }

  lemma HomesApart(forest: map<Id, map<Id, Node>>, depths: map<Id, map<Id, nat>>, home: map<Id, Id>)
    requires Rooted(forest, depths, home)
    ensures forall r, x :: r in forest && x in forest[r] ==> x in home && home[x] == r
  {
    assert forall r :: r in forest ==> RootedAt(forest[r], r, depths[r], home);
  }

  lemma StaysPlaced(m: Message, forest: map<Id, map<Id, Node>>, home: map<Id, Id>, root: Id, branch: Id, doomed: set<Id>)
    requires Placed(m, forest, home) && m.node !in doomed && root in forest && branch in forest[root]
    requires branch == root ==> forest[root].Keys <= doomed
    ensures Placed(m, Felled(forest, Some(root), branch, doomed), home)
  {
  }

  lemma OthersStand(forest: map<Id, map<Id, Node>>, home: map<Id, Id>, root: Id, branch: Id, doomed: set<Id>, r: Id, x: Id)
    requires root in forest && branch in forest[root] && (forall x :: x in doomed ==> x in home && home[x] == root)
    requires forall r, x :: r in forest && x in forest[r] ==> x in home && home[x] == r
    requires r in Felled(forest, Some(root), branch, doomed) && x in Felled(forest, Some(root), branch, doomed)[r]
    ensures r in forest && x in forest[r] && x !in doomed
  {
  }

  lemma SameStatuses(live: seq<Message>, forest: map<Id, map<Id, Node>>, home: map<Id, Id>, root: Id, doomed: set<Id>)
    requires Mirrors(live, forest, home) && root in forest && forall x :: x in doomed ==> x in forest[root] && x in home && home[x] == root
    ensures StatusesOf(forest[root], doomed) == StatusIds(live, doomed)
  {
    forall x | x in doomed
      ensures exists m :: m in live && m.node == x && m.status == forest[root][x].status
    {
      assert x in LiveIds(live);
      LiveIdsAre(live, x);
      var m :| m in live && m.node == x;
      assert Placed(m, forest, home);
    }
    forall m | m in live && m.node in doomed
      ensures m.status == forest[root][m.node].status
    {
      assert Placed(m, forest, home);
    }
  }

  lemma {:induction false} AnswerIs(live: seq<Message>, msg: Id)
    ensures Answer(live, msg).Some? ==> exists m :: m in live && m.node == Answer(live, msg).value && (m.node == msg || m.status == msg)
    ensures Answer(live, msg).None? ==> forall m :: m in live ==> m.node != msg && m.status != msg
  {
    if live != [] {
      AnswerIs(live[..|live| - 1], msg);
      assert live == live[..|live| - 1] + [live[|live| - 1]];
    }
  }

  lemma {:induction false} KeepAll(live: seq<Message>)
    ensures Kept(live, {}) == live
  {
    if live != [] {
      KeepAll(live[..|live| - 1]);
    }
  }
}
