/** All conversation trees and the one map that says which tree an id belongs to. Ids of removed nodes
    stay in that map when they are status ids; what an id resolves to must not depend on it. */
module TreeRepositories {
  import opened Wrappers
  import opened TreeScheduler
  import opened MessageTrees
  import opened MessageLists

  datatype TreeDict = TreeDict(rootId: Id, nodes: map<Id, Node>)
  datatype RepoDict = RepoDict(trees: map<Id, TreeDict>, nodeToTree: map<Id, Id>)

  /** What is remembered about ids for good: the tree each was made for, those made for status
      messages, those whose node has been removed, and statuses still to be registered. */
  datatype Ledger = Ledger(home: map<Id, Id>, statuses: set<Id>, gone: set<Id>, pending: set<Id>)

  /** An id is mapped to the tree it was made for, if at all. */
  ghost predicate Sound(l: Ledger, nodeToTree: map<Id, Id>) {
    && l.statuses <= l.home.Keys && l.gone <= l.home.Keys
    && forall x :: x in nodeToTree ==> x in l.home && nodeToTree[x] == l.home[x]
  }

  /** A live node of tree `root`: its ids were made for that tree and are not gone. */
  ghost predicate Known(l: Ledger, nodeToTree: map<Id, Id>, root: Id, n: Id, status: Id) {
    && n in l.home && l.home[n] == root && n !in l.statuses && n !in l.gone
    && status in l.home && l.home[status] == root && status in l.statuses && status !in l.gone
    && n in nodeToTree && (status in nodeToTree || status in l.pending)
  }

  ghost predicate AllKnown(l: Ledger, nodeToTree: map<Id, Id>, root: Id, nodes: map<Id, Node>) {
    forall n :: n in nodes ==> Known(l, nodeToTree, root, n, nodes[n].status)
  }

  /** Two new ids for a node of tree `root`. */
  ghost function WithNode(l: Ledger, node: Id, status: Id, root: Id): Ledger {
    l.(home := l.home[node := root][status := root], statuses := l.statuses + {status}, pending := l.pending + {status})
  }

  lemma NewIdsAreSound(l: Ledger, nodeToTree: map<Id, Id>, node: Id, status: Id, root: Id)
    requires Sound(l, nodeToTree) && node !in l.home && status !in l.home && node != status
    ensures Sound(WithNode(l, node, status, root), nodeToTree[node := root])
    ensures Known(WithNode(l, node, status, root), nodeToTree[node := root], root, node, status)
  {
  }

  lemma StillKnown(l: Ledger, nodeToTree: map<Id, Id>, r: Id, nodes: map<Id, Node>, node: Id, status: Id, root: Id)
    requires Sound(l, nodeToTree) && AllKnown(l, nodeToTree, r, nodes) && node !in l.home && status !in l.home
    ensures AllKnown(WithNode(l, node, status, root), nodeToTree[node := root], r, nodes)
    ensures node !in nodes && forall x :: x in nodes ==> nodes[x].status != status
  {
    forall n | n in nodes
      ensures Known(WithNode(l, node, status, root), nodeToTree[node := root], r, n, nodes[n].status)
    {
      assert Known(l, nodeToTree, r, n, nodes[n].status);
    }
  }

  lemma GrownIsKnown(l: Ledger, nodeToTree: map<Id, Id>, root: Id, nodes: map<Id, Node>, node: Id, status: Id, parent: Id)
    requires AllKnown(l, nodeToTree, root, nodes) && Known(l, nodeToTree, root, node, status) && parent in nodes && node !in nodes
    ensures AllKnown(l, nodeToTree, root, Grown(nodes, node, status, parent))
  {
    hide Known;
  }

  lemma OneNode(l: Ledger, nodeToTree: map<Id, Id>, root: Id, nodes: map<Id, Node>, status: Id)
    requires Known(l, nodeToTree, root, root, status) && nodes == map[root := Node(status, Pending, None, [])]
    ensures AllKnown(l, nodeToTree, root, nodes)
  {
  }

  /** Some nodes of a tree are removed, with their status ids. */
  ghost function WithGone(l: Ledger, nodes: map<Id, Node>, which: set<Id>): Ledger {
    l.(gone := l.gone + which + StatusesOf(nodes, which))
  }

  lemma GoneIsSound(l: Ledger, nodeToTree: map<Id, Id>, root: Id, nodes: map<Id, Node>, which: set<Id>)
    requires Sound(l, nodeToTree) && AllKnown(l, nodeToTree, root, nodes) && which <= nodes.Keys
    ensures Sound(WithGone(l, nodes, which), nodeToTree - which)
  {
    forall x | x in which + StatusesOf(nodes, which)
      ensures x in l.home
    {
      if x in which {
        assert Known(l, nodeToTree, root, x, nodes[x].status);
      } else {
        var n :| n in which && nodes[n].status == x;
        assert Known(l, nodeToTree, root, n, nodes[n].status);
      }
    }
  }

  /** Another tree shares no id with the nodes removed. */
  lemma OthersKeepTheirs(l: Ledger, nodeToTree: map<Id, Id>, root: Id, nodes: map<Id, Node>, which: set<Id>, q: Id, others: map<Id, Node>)
    requires AllKnown(l, nodeToTree, root, nodes) && AllKnown(l, nodeToTree, q, others) && which <= nodes.Keys && q != root
    ensures AllKnown(WithGone(l, nodes, which), nodeToTree - which, q, others)
  {
    forall n | n in others
      ensures Known(WithGone(l, nodes, which), nodeToTree - which, q, n, others[n].status)
    {
      assert Known(l, nodeToTree, q, n, others[n].status);
      assert forall d :: d in which ==> Known(l, nodeToTree, root, d, nodes[d].status);
    }
  }

  /** The nodes that stay share no id with those removed from their tree. */
  lemma RestKeepsTheirs(l: Ledger, nodeToTree: map<Id, Id>, root: Id, nodes: map<Id, Node>, statusToNode: map<Id, Id>, which: set<Id>, branch: Id)
    requires AllKnown(l, nodeToTree, root, nodes) && Indexed(nodes, statusToNode) && which <= nodes.Keys && branch in nodes
    ensures AllKnown(WithGone(l, nodes, which), nodeToTree - which, root, Pruned(nodes, which, branch))
  {
    forall n | n in nodes && n !in which
      ensures Known(WithGone(l, nodes, which), nodeToTree - which, root, n, nodes[n].status)
    {
      assert Known(l, nodeToTree, root, n, nodes[n].status);
      assert forall d :: d in which ==> Known(l, nodeToTree, root, d, nodes[d].status);
    }
    hide Known, Indexed;
  }

  ghost function Registered(l: Ledger, id: Id): Ledger {
    l.(pending := l.pending - {id})
  }

  lemma RegisteredIsKnown(l: Ledger, nodeToTree: map<Id, Id>, id: Id, r: Id, nodes: map<Id, Node>)
    requires AllKnown(l, nodeToTree, r, nodes) && id in l.home
    ensures AllKnown(Registered(l, id), nodeToTree[id := l.home[id]], r, nodes)
  {
    forall n | n in nodes
      ensures Known(Registered(l, id), nodeToTree[id := l.home[id]], r, n, nodes[n].status)
    {
      assert Known(l, nodeToTree, r, n, nodes[n].status);
    }
  }

  ghost predicate Fits(t: MessageTree, r: Id, l: Ledger, nodeToTree: map<Id, Id>)
    reads t
  {
    t.rootId == r && t.Shape() && AllKnown(l, nodeToTree, r, t.nodes)
  }

  lemma FitsAgain(t: MessageTree, r: Id, l: Ledger, nodeToTree: map<Id, Id>)
    requires t.rootId == r && t.Shape() && AllKnown(l, nodeToTree, r, t.nodes)
    ensures Fits(t, r, l, nodeToTree)
  {
  }

  class TreeRepository {
    var trees: map<Id, MessageTree>
    var nodeToTree: map<Id, Id>
    ghost var ledger: Ledger

    ghost predicate Valid()
      reads this, trees.Values
    {
      Sound(ledger, nodeToTree) && forall r :: r in trees ==> Fits(trees[r], r, ledger, nodeToTree)
    }

    /** The nodes of every tree, and how deep they are. */
    ghost function Forest(): map<Id, map<Id, Node>>
      reads this, trees.Values
    {
      map r | r in trees :: trees[r].nodes
    }

    ghost function Depths(): map<Id, map<Id, nat>>
      reads this, trees.Values
    {
      map r | r in trees :: trees[r].depth
    }

    constructor ()
      ensures Valid() && trees == map[] && nodeToTree == map[] && ledger == Ledger(map[], {}, {}, {})
    {
      trees, nodeToTree := map[], map[];
      ledger := Ledger(map[], {}, {}, {});
    }

    /** Read back from storage. What the ledger and the depths were has to be supplied: they are
        no part of what is stored, nor of what the program computes. */
    constructor FromDict(d: RepoDict, ghost levels: map<Id, map<Id, nat>>, ghost known: Ledger)
      requires levels.Keys == d.trees.Keys && forall r :: r in d.trees ==> d.trees[r].rootId in d.trees[r].nodes
      ensures nodeToTree == d.nodeToTree && ledger == known && trees.Keys == d.trees.Keys
      ensures forall r :: r in trees ==> fresh(trees[r]) && ReadBack(trees[r], d.trees[r], levels[r])
    {
      var read := ReadTrees(d.trees, levels);
      trees := read;
      nodeToTree := d.nodeToTree;
      ledger := known;
    }

    function ToDict(): RepoDict
      reads this, trees.Values
    {
      RepoDict(map r | r in trees :: TreeDict(trees[r].rootId, trees[r].nodes), nodeToTree)
    }

    /** The tree an id is mapped to. */
    function TreeFor(id: Id): (r: Option<MessageTree>)
      reads this
      ensures r.Some? ==> exists root :: root in trees && trees[root] == r.value
    {
      if id in nodeToTree && nodeToTree[id] in trees then Some(trees[nodeToTree[id]]) else None
    }

    function Resolve(msg: Id): Option<Id>
      reads this, trees.Values
    {
      match TreeFor(msg)
      case None => None
      case Some(t) => if msg in t.nodes then Some(msg) else t.FindByStatus(msg)
    }

    /** An id resolves to a live node that it is or whose status message it is, to no other, and to none
        once that node is removed; live nodes resolve to themselves, and so do their status messages
        once registered. */
    lemma ResolveIsRight(msg: Id)
      requires Valid()
      ensures Resolve(msg).Some? ==> exists r :: r in trees && Resolve(msg).value in trees[r].nodes
                                       && (Resolve(msg).value == msg || trees[r].nodes[Resolve(msg).value].status == msg)
      ensures forall r, n :: r in trees && n in trees[r].nodes && (n == msg || (trees[r].nodes[n].status == msg && msg !in ledger.pending))
                ==> Resolve(msg) == Some(n)
      ensures msg in ledger.gone ==> Resolve(msg) == None
    {
      forall r, n | r in trees && n in trees[r].nodes && (n == msg || (trees[r].nodes[n].status == msg && msg !in ledger.pending))
        ensures Resolve(msg) == Some(n)
      {
        assert Fits(trees[r], r, ledger, nodeToTree) && Known(ledger, nodeToTree, r, n, trees[r].nodes[n].status);
        assert msg in trees[r].nodes ==> Known(ledger, nodeToTree, r, msg, trees[r].nodes[msg].status);
      }
      if TreeFor(msg).Some? {
        var r := nodeToTree[msg];
        assert Fits(trees[r], r, ledger, nodeToTree);
        if Resolve(msg).Some? {
          var n := Resolve(msg).value;
          assert n in trees[r].nodes && Known(ledger, nodeToTree, r, n, trees[r].nodes[n].status);
        }
      }
    }

    /** A new conversation. */
    method CreateTree(node: Id, status: Id) returns (tree: MessageTree)
      requires Valid() && node !in ledger.home && status !in ledger.home && node != status
      modifies `trees, `nodeToTree, `ledger
      ensures Valid() && fresh(tree) && trees == old(trees)[node := tree]
      ensures tree.nodes == map[node := Node(status, Pending, None, [])] && nodeToTree == old(nodeToTree)[node := node]
      ensures ledger == WithNode(old(ledger), node, status, node)
      ensures Forest() == old(Forest())[node := tree.nodes]
    {
      hide Sound, Known, Fits, WithNode, Forest, Valid;
      ghost var l := NewIdsReady(node, status);
      tree := NewTree(node, status, l, nodeToTree[node := node]);
      Plant(tree, node, l);
    }

    lemma NewIdsReady(node: Id, status: Id) returns (l: Ledger)
      requires Valid() && node !in ledger.home && status !in ledger.home && node != status
      ensures l == WithNode(ledger, node, status, node) && Sound(l, nodeToTree[node := node])
      ensures Known(l, nodeToTree[node := node], node, node, status)
      ensures forall r :: r in trees ==> Fits(trees[r], r, l, nodeToTree[node := node])
    {
      NewIdsAreSound(ledger, nodeToTree, node, status, node);
      NewIdsSpareTheRest(node, status, node);
      l := WithNode(ledger, node, status, node);
      hide *;
    }

    /** A tree that fits the map and ledger to come is taken in. */
    method Plant(tree: MessageTree, root: Id, ghost l: Ledger)
      requires Sound(l, nodeToTree[root := root]) && Fits(tree, root, l, nodeToTree[root := root])
      requires forall r :: r in trees ==> Fits(trees[r], r, l, nodeToTree[root := root])
      modifies `trees, `nodeToTree, `ledger
      ensures Valid() && trees == old(trees)[root := tree] && nodeToTree == old(nodeToTree)[root := root] && ledger == l
      ensures Forest() == old(Forest())[root := tree.nodes]
    {
      hide Sound, Fits;
      trees := trees[root := tree];
      nodeToTree := nodeToTree[root := root];
      ledger := l;
    }

    /** The trees as they are fit the map and ledger to come. */
    lemma NewIdsSpareTheRest(node: Id, status: Id, root: Id)
      requires Valid() && node !in ledger.home && status !in ledger.home && node != status
      ensures forall r :: r in trees ==>
                Fits(trees[r], r, WithNode(ledger, node, status, root), nodeToTree[node := root])
                && node !in trees[r].nodes && status !in trees[r].statusToNode
    {
      forall r | r in trees
        ensures Fits(trees[r], r, WithNode(ledger, node, status, root), nodeToTree[node := root])
                && node !in trees[r].nodes && status !in trees[r].statusToNode
      {
        assert Fits(trees[r], r, ledger, nodeToTree);
        StillKnown(ledger, nodeToTree, r, trees[r].nodes, node, status, root);
      }
    }

    /** The trees are told apart by their roots. */
    lemma Apart(root: Id)
      requires Valid() && root in trees
      ensures forall r :: r in trees && r != root ==> trees[r] != trees[root]
    {
      assert forall r :: r in trees ==> Fits(trees[r], r, ledger, nodeToTree);
    }

    ghost predicate Live(id: Id)
      reads this, trees.Values
    {
      exists r :: r in trees && id in trees[r].nodes
    }

    /** The map knows every live node. */
    lemma LiveIsMapped(id: Id)
      requires Valid()
      ensures Live(id) <==> id in nodeToTree && nodeToTree[id] in trees && id in trees[nodeToTree[id]].nodes
    {
      if r :| r in trees && id in trees[r].nodes {
        assert Fits(trees[r], r, ledger, nodeToTree) && Known(ledger, nodeToTree, r, id, trees[r].nodes[id].status);
      }
    }

    /** A reply; false for the error raised when the parent is not a live node. */
    method AddToTree(parent: Id, node: Id, status: Id) returns (ok: bool)
      requires Valid() && node !in ledger.home && status !in ledger.home && node != status
      modifies `nodeToTree, `ledger, trees.Values
      ensures Valid() && trees == old(trees) && ok == old(Live(parent))
      ensures !ok ==> nodeToTree == old(nodeToTree) && ledger == old(ledger) && forall r :: r in trees ==> unchanged(trees[r])
      ensures ok ==>
                && parent in old(nodeToTree) && old(nodeToTree)[parent] in trees
                && Grew(old(nodeToTree)[parent], parent, node, status)
      ensures Forest() == if ok then old(Forest())[old(nodeToTree)[parent] := Grown(old(trees[nodeToTree[parent]].nodes), node, status, parent)]
                          else old(Forest())
    {
      hide Live, Valid, WithNode, Grown, Forest, Grew;
      LiveIsMapped(parent);
      ok := false;
      if parent in nodeToTree && nodeToTree[parent] in trees {
        ok := Graft(trees[nodeToTree[parent]], nodeToTree[parent], parent, node, status);
      }
    }

    /** Only one tree, the map and the ledger have changed. */
    twostate predicate Grew(root: Id, parent: Id, node: Id, status: Id)
      requires root in trees && trees == old(trees)
      reads this, trees.Values
    {
      && parent in old(trees[root].nodes) && trees[root].nodes == Grown(old(trees[root].nodes), node, status, parent)
      && (forall q :: q in trees && q != root ==> unchanged(trees[q]))
      && nodeToTree == old(nodeToTree)[node := root] && ledger == WithNode(old(ledger), node, status, root)
    }

    method Graft(t: MessageTree, root: Id, parent: Id, node: Id, status: Id) returns (ok: bool)
      requires Valid() && node !in ledger.home && status !in ledger.home && node != status && root in trees && t == trees[root]
      modifies `nodeToTree, `ledger, t`nodes, t`statusToNode, t`depth
      ensures Valid() && ok == (parent in old(t.nodes))
      ensures !ok ==> nodeToTree == old(nodeToTree) && ledger == old(ledger) && unchanged(t)
      ensures ok ==> Grew(root, parent, node, status)
      ensures Forest() == if ok then old(Forest())[root := Grown(old(t.nodes), node, status, parent)] else old(Forest())
    {
      hide Sound, AllKnown, Linked, Indexed, WithNode, Grown, Known, Fits;
      ghost var l := Ready(t, root, parent, node, status);
      ok := t.AddNode(node, status, parent);
      if !ok {
        return;
      }
      FitsAgain(t, root, l, nodeToTree[node := root]);
      nodeToTree, ledger := nodeToTree[node := root], l;
    }

    lemma Ready(t: MessageTree, root: Id, parent: Id, node: Id, status: Id) returns (l: Ledger)
      requires Valid() && node !in ledger.home && status !in ledger.home && node != status && root in trees && t == trees[root]
      ensures l == WithNode(ledger, node, status, root) && Sound(l, nodeToTree[node := root])
      ensures t.rootId == root && t.Shape() && node !in t.nodes && status !in t.statusToNode
      ensures parent in t.nodes ==> AllKnown(l, nodeToTree[node := root], root, Grown(t.nodes, node, status, parent))
      ensures forall r :: r in trees ==> Fits(trees[r], r, l, nodeToTree[node := root])
      ensures forall r :: r in trees && r != root ==> trees[r] != t
    {
      l := WithNode(ledger, node, status, root);
      assert Fits(t, root, ledger, nodeToTree);
      NewIdsAreSound(ledger, nodeToTree, node, status, root);
      NewIdsSpareTheRest(node, status, root);
      if parent in t.nodes {
        GrownIsKnown(l, nodeToTree[node := root], root, t.nodes, node, status, parent);
      }
      Apart(root);
      hide Sound, AllKnown, Known, Linked, Indexed, WithNode, Grown;
    }

    /** The map takes any entry. It stays right exactly when the id was made for that tree, as the
        handler's status messages are. */
    method RegisterNode(id: Id, root: Id)
      requires Valid()
      modifies `nodeToTree, `ledger
      ensures nodeToTree == old(nodeToTree)[id := root] && ledger == Registered(old(ledger), id) && Forest() == old(Forest())
      ensures Valid() <==> id in ledger.home && ledger.home[id] == root
    {
      RegisterReady(id, root);
      hide Fits, Sound, Registered;
      nodeToTree := nodeToTree[id := root];
      ledger := Registered(ledger, id);
    }

    lemma RegisterReady(id: Id, root: Id)
      requires Valid()
      ensures Registered(ledger, id).home == ledger.home
      ensures Sound(Registered(ledger, id), nodeToTree[id := root]) <==> id in ledger.home && ledger.home[id] == root
      ensures id in ledger.home && ledger.home[id] == root ==>
                forall r :: r in trees ==> Fits(trees[r], r, Registered(ledger, id), nodeToTree[id := root])
    {
      if id in ledger.home && ledger.home[id] == root {
        forall r | r in trees
          ensures Fits(trees[r], r, Registered(ledger, id), nodeToTree[id := root])
        {
          assert Fits(trees[r], r, ledger, nodeToTree);
          RegisteredIsKnown(ledger, nodeToTree, id, r, trees[r].nodes);
        }
      }
    }

    method UnregisterNodes(ids: seq<Id>)
      modifies `nodeToTree
      ensures nodeToTree == old(nodeToTree) - Ids(ids)
    {
      assert ids[..0] == [];
      for n := 0 to |ids|
        invariant nodeToTree == old(nodeToTree) - Ids(ids[..n])
      {
        NextIds(ids, n);
        hide Ids;
        nodeToTree := nodeToTree - {ids[n]};
      }
      assert ids[..|ids|] == ids;
    }

    /** A whole tree goes. */
    method RemoveTree(root: Id) returns (removed: seq<Id>)
      requires Valid() && root in trees
      modifies `trees, `nodeToTree, `ledger
      ensures Valid() && NoDup(removed) && Ids(removed) == old(trees)[root].nodes.Keys
      ensures trees == old(trees) - {root} && nodeToTree == old(nodeToTree) - Ids(removed)
      ensures ledger == WithGone(old(ledger), old(trees)[root].nodes, Ids(removed))
    {
      var t := trees[root];
      RemovalReady(root, t.nodes.Keys);
      removed := Listed(t.nodes.Keys);
      Uproot(root, removed, WithGone(ledger, t.nodes, t.nodes.Keys));
    }

    /** A tree is let go of, with the entries of its nodes. */
    method Uproot(root: Id, removed: seq<Id>, ghost l: Ledger)
      requires Sound(l, nodeToTree - Ids(removed))
      requires forall q :: q in trees && q != root ==> Fits(trees[q], q, l, nodeToTree - Ids(removed))
      modifies `trees, `nodeToTree, `ledger
      ensures Valid() && trees == old(trees) - {root} && nodeToTree == old(nodeToTree) - Ids(removed) && ledger == l
    {
      hide Sound, Fits, Ids;
      UnregisterNodes(removed);
      trees := trees - {root};
      ledger := l;
    }

    /** The map and ledger to come are right for every other tree. */
    lemma RemovalReady(root: Id, which: set<Id>)
      requires Valid() && root in trees && which <= trees[root].nodes.Keys
      ensures Sound(WithGone(ledger, trees[root].nodes, which), nodeToTree - which)
      ensures forall q :: q in trees && q != root ==>
                Fits(trees[q], q, WithGone(ledger, trees[root].nodes, which), nodeToTree - which) && trees[q] != trees[root]
    {
      assert Fits(trees[root], root, ledger, nodeToTree);
      GoneIsSound(ledger, nodeToTree, root, trees[root].nodes, which);
      forall q | q in trees && q != root
        ensures Fits(trees[q], q, WithGone(ledger, trees[root].nodes, which), nodeToTree - which) && trees[q] != trees[root]
      {
        assert Fits(trees[q], q, ledger, nodeToTree);
        OthersKeepTheirs(ledger, nodeToTree, root, trees[root].nodes, which, q, trees[q].nodes);
      }
    }

    /** A branch goes, or the whole tree if it is the root's. The nodes removed are the subtree, and
        they and their status ids are gone for good. */
    method RemoveBranch(branch: Id) returns (removed: seq<Id>, root: Option<Id>, entire: bool)
      requires Valid()
      modifies `trees, `nodeToTree, `ledger, trees.Values
      ensures Valid() && NoDup(removed)
      ensures old(TreeFor(branch)).None? ==> removed == [] && root == None && !entire && Untouched()
      ensures old(TreeFor(branch)).Some? ==>
                var t := old(TreeFor(branch)).value;
                && root == Some(t.rootId) && entire == (branch == t.rootId)
                && trees == (if entire then old(trees) - {t.rootId} else old(trees))
                && Shrunk(t, branch, Ids(removed))
                && forall r :: r in old(trees) && r != t.rootId ==> unchanged(old(trees)[r])
      ensures Forest() == Felled(old(Forest()), if old(TreeFor(branch)).None? then None else Some(old(TreeFor(branch)).value.rootId), branch, Ids(removed))
    {
      hide Fits, Sound, WithGone, Ids, NoDup, Subtree, AllKnown, Linked, Indexed;
      var found := TreeFor(branch);
      if found.None? {
        NothingGone(map[]);
        return [], None, false;
      }
      var t := found.value;
      AtHome(branch);
      root := Some(t.rootId);
      if branch == t.rootId {
        WholeTree(t);
        removed := RemoveTree(t.rootId);
        entire := true;
        return;
      }
      removed := CutBranch(t, branch);
      entire := false;
    }

    lemma NothingGone(nodes: map<Id, Node>)
      ensures Ids([]) == {} && NoDup([]) && nodeToTree - {} == nodeToTree && WithGone(ledger, nodes, {}) == ledger
    {
    }

    twostate predicate Untouched()
      reads this, trees.Values
    {
      trees == old(trees) && nodeToTree == old(nodeToTree) && ledger == old(ledger) && forall r :: r in trees ==> unchanged(trees[r])
    }

    /** The nodes of the subtree, if there is one, have left the map and are gone. */
    twostate predicate Shrunk(t: MessageTree, branch: Id, which: set<Id>)
      reads this, t
    {
      && old(t.Shape())
      && which == (if branch in old(t.nodes) then Subtree(old(t.nodes), t.rootId, old(t.depth), false, branch) else {})
      && nodeToTree == old(nodeToTree) - which && ledger == WithGone(old(ledger), old(t.nodes), which)
      && t.nodes == if branch == t.rootId || branch !in old(t.nodes) then old(t.nodes) else Pruned(old(t.nodes), which, branch)
    }

    lemma AtHome(id: Id)
      requires Valid() && TreeFor(id).Some?
      ensures TreeFor(id).value.rootId == nodeToTree[id] && TreeFor(id).value.Shape()
    {
      assert Fits(trees[nodeToTree[id]], nodeToTree[id], ledger, nodeToTree);
    }

    /** The subtree of the root is the whole tree. */
    lemma WholeTree(t: MessageTree)
      requires t.Shape()
      ensures t.rootId in t.nodes && Subtree(t.nodes, t.rootId, t.depth, false, t.rootId) == t.nodes.Keys
    {
      forall x | x in t.nodes
        ensures Below(t.nodes, t.rootId, t.depth, false, x, t.rootId)
      {
        AllUnderRoot(t.nodes, t.rootId, t.depth, x);
      }
    }

    method CutBranch(t: MessageTree, branch: Id) returns (removed: seq<Id>)
      requires Valid() && t.rootId in trees && trees[t.rootId] == t && t.Shape() && branch != t.rootId
      modifies `nodeToTree, `ledger, t`nodes, t`statusToNode
      ensures Valid() && NoDup(removed) && Shrunk(t, branch, Ids(removed))
      ensures forall r :: r in trees && r != t.rootId ==> unchanged(trees[r])
    {
      hide Fits, Sound, WithGone, NoDup, Subtree, AllKnown, Linked, Indexed, Pruned, Ids;
      ghost var which, l := BranchReady(t, branch);
      ghost var present := branch in t.nodes;
      removed := t.RemoveBranch(branch);
      if present {
        FitsAgain(t, t.rootId, l, nodeToTree - which);
      }
      UnregisterNodes(removed);
      ledger := l;
    }

    lemma BranchReady(t: MessageTree, branch: Id) returns (which: set<Id>, l: Ledger)
      requires Valid() && t.rootId in trees && trees[t.rootId] == t && t.Shape()
      ensures which == (if branch in t.nodes then Subtree(t.nodes, t.rootId, t.depth, false, branch) else {})
      ensures l == WithGone(ledger, t.nodes, which) && Sound(l, nodeToTree - which) && Ids([]) == {} && NoDup([])
      ensures if branch in t.nodes then AllKnown(l, nodeToTree - which, t.rootId, Pruned(t.nodes, which, branch))
              else Fits(t, t.rootId, l, nodeToTree - which)
      ensures forall q :: q in trees && q != t.rootId ==> Fits(trees[q], q, l, nodeToTree - which) && trees[q] != t
    {
      which := if branch in t.nodes then Subtree(t.nodes, t.rootId, t.depth, false, branch) else {};
      l := WithGone(ledger, t.nodes, which);
      assert which <= t.nodes.Keys;
      assert Fits(t, t.rootId, ledger, nodeToTree);
      RemovalReady(t.rootId, which);
      hide Subtree, Sound, Linked, Known, WithGone, Pruned;
      if branch in t.nodes {
        RestKeepsTheirs(ledger, nodeToTree, t.rootId, t.nodes, t.statusToNode, which, branch);
      } else {
        NothingGone(t.nodes);
      }
    }
  }

  method NewTree(node: Id, status: Id, ghost l: Ledger, ghost nodeToTree: map<Id, Id>) returns (tree: MessageTree)
    requires Known(l, nodeToTree, node, node, status)
    ensures fresh(tree) && Fits(tree, node, l, nodeToTree) && tree.nodes == map[node := Node(status, Pending, None, [])]
  {
    tree := new MessageTree(node, status);
    OneNode(l, nodeToTree, node, tree.nodes, status);
    FitsAgain(tree, node, l, nodeToTree);
  }

  ghost predicate ReadBack(t: MessageTree, d: TreeDict, level: map<Id, nat>)
    reads t
  {
    && t.rootId == d.rootId && t.nodes == d.nodes && t.depth == level
    && forall index :: Indexed(d.nodes, index) ==> t.statusToNode == index
  }

  method ReadTree(d: TreeDict, ghost level: map<Id, nat>) returns (t: MessageTree)
    requires d.rootId in d.nodes
    ensures fresh(t) && ReadBack(t, d, level)
  {
    t := new MessageTree.FromDict(d.rootId, d.nodes, level);
  }

  /** The trees read back so far. */
  ghost predicate Back(trees: map<Id, MessageTree>, ds: map<Id, TreeDict>, levels: map<Id, map<Id, nat>>, left: set<Id>)
    reads trees.Values
  {
    && left <= ds.Keys && trees.Keys == ds.Keys - left && levels.Keys == ds.Keys
    && forall r :: r in trees ==> ReadBack(trees[r], ds[r], levels[r])
  }

  lemma BackNext(trees: map<Id, MessageTree>, ds: map<Id, TreeDict>, levels: map<Id, map<Id, nat>>, left: set<Id>, r: Id, t: MessageTree)
    requires Back(trees, ds, levels, left) && r in left && r in ds && r in levels && ReadBack(t, ds[r], levels[r])
    ensures Back(trees[r := t], ds, levels, left - {r})
  {
    hide ReadBack;
  }

  lemma BackStart(ds: map<Id, TreeDict>, levels: map<Id, map<Id, nat>>)
    requires levels.Keys == ds.Keys
    ensures Back(map[], ds, levels, ds.Keys)
  {
  }

  lemma BackEnd(trees: map<Id, MessageTree>, ds: map<Id, TreeDict>, levels: map<Id, map<Id, nat>>)
    requires Back(trees, ds, levels, {})
    ensures trees.Keys == ds.Keys == levels.Keys && forall r :: r in trees ==> ReadBack(trees[r], ds[r], levels[r])
  {
    hide ReadBack;
  }

  method ReadTrees(ds: map<Id, TreeDict>, ghost levels: map<Id, map<Id, nat>>) returns (trees: map<Id, MessageTree>)
    requires levels.Keys == ds.Keys && forall r :: r in ds ==> ds[r].rootId in ds[r].nodes
    ensures trees.Keys == ds.Keys && forall r :: r in trees ==> fresh(trees[r]) && ReadBack(trees[r], ds[r], levels[r])
  {
    hide ReadBack, Back;
    trees := map[];
    var left := ds.Keys;
    BackStart(ds, levels);
    while left != {}
      invariant left <= ds.Keys && Back(trees, ds, levels, left)
      invariant forall r :: r in trees ==> fresh(trees[r])
      decreases |left|
    {
      var r :| r in left;
      var t := ReadTree(ds[r], levels[r]);
      BackNext(trees, ds, levels, left, r, t);
      trees := trees[r := t];
      left := left - {r};
    }
    BackEnd(trees, ds, levels);
  }

  /** Storing all trees and reading them back changes no answer. */
  method StoreAndRestore(repo: TreeRepository) returns (copy: TreeRepository)
    requires repo.Valid()
    ensures fresh(copy) && copy.Valid() && copy.ToDict() == repo.ToDict() && copy.ledger == repo.ledger
    ensures forall r :: r in copy.trees ==> fresh(copy.trees[r])
    ensures forall msg :: copy.Resolve(msg) == repo.Resolve(msg)
  {
    ghost var levels := map r | r in repo.trees :: repo.trees[r].depth;
    RootsAreStored(repo);
    copy := new TreeRepository.FromDict(repo.ToDict(), levels, repo.ledger);
    SameAnswers(repo, copy, levels);
    hide *;
  }

  /** Trees that have the same nodes and were read back from valid ones have the same index too. */
  lemma SameAnswers(repo: TreeRepository, copy: TreeRepository, levels: map<Id, map<Id, nat>>)
    requires repo.Valid() && copy.nodeToTree == repo.nodeToTree && copy.ledger == repo.ledger && copy.trees.Keys == repo.trees.Keys
    requires levels.Keys == repo.trees.Keys && forall r :: r in levels ==> levels[r] == repo.trees[r].depth
    requires forall r :: r in copy.trees ==> ReadBack(copy.trees[r], TreeDict(repo.trees[r].rootId, repo.trees[r].nodes), levels[r])
    ensures copy.Valid() && copy.ToDict() == repo.ToDict() && forall msg :: copy.Resolve(msg) == repo.Resolve(msg)
  {
    hide Fits, ReadBack, Sound, SameTree;
    forall r | r in repo.trees
      ensures Fits(copy.trees[r], r, repo.ledger, repo.nodeToTree) && SameTree(copy.trees[r], repo.trees[r])
    {
      SameTreeBack(repo.trees[r], copy.trees[r], r, levels[r], repo.ledger, repo.nodeToTree);
    }
    SameLookups(repo, copy);
  }

  lemma SameTreeBack(t: MessageTree, back: MessageTree, r: Id, level: map<Id, nat>, l: Ledger, nodeToTree: map<Id, Id>)
    requires Fits(t, r, l, nodeToTree) && level == t.depth && ReadBack(back, TreeDict(t.rootId, t.nodes), level)
    ensures Fits(back, r, l, nodeToTree) && SameTree(back, t)
  {
    assert Indexed(t.nodes, t.statusToNode);
    hide Linked, AllKnown, Indexed;
  }

  lemma SameLookups(repo: TreeRepository, copy: TreeRepository)
    requires copy.nodeToTree == repo.nodeToTree && copy.trees.Keys == repo.trees.Keys
    requires forall r :: r in repo.trees ==> SameTree(copy.trees[r], repo.trees[r])
    ensures copy.ToDict() == repo.ToDict() && forall msg :: copy.Resolve(msg) == repo.Resolve(msg)
  {
    assert forall r :: r in repo.trees ==> SameTree(copy.trees[r], repo.trees[r]);
    assert copy.ToDict().trees == repo.ToDict().trees;
  }

  ghost predicate SameTree(a: MessageTree, b: MessageTree)
    reads a, b
  {
    a.rootId == b.rootId && a.nodes == b.nodes && a.statusToNode == b.statusToNode
  }

  lemma RootsAreStored(repo: TreeRepository)
    requires repo.Valid()
    ensures forall r :: r in repo.trees ==> repo.trees[r].rootId in repo.trees[r].nodes
  {
    assert forall r :: r in repo.trees ==> Fits(repo.trees[r], r, repo.ledger, repo.nodeToTree);
  }

  // ---------------------------------------------------------------- whole runs

  /** What the handler does: a new conversation or a reply, with the status message registered at
      once; a branch cleared; a restart. */
  datatype Op =
    | Create(node: Id, status: Id)
    | Reply(parent: Id, node: Id, status: Id)
    | Remove(branch: Id)
    | Restart

  function NewIds(op: Op): set<Id> {
    if op.Create? || op.Reply? then {op.node, op.status} else {}
  }

  function AllNewIds(ops: seq<Op>): set<Id> {
    if ops == [] then {} else AllNewIds(ops[..|ops| - 1]) + NewIds(ops[|ops| - 1])
  }

  predicate FreshIds(ops: seq<Op>) {
    ops != [] ==>
      var last := ops[|ops| - 1];
      FreshIds(ops[..|ops| - 1]) && NewIds(last) !! AllNewIds(ops[..|ops| - 1]) && (last.Create? || last.Reply? ==> last.node != last.status)
  }

  function Replied(c: Conversations, op: Op): Conversations {
    match op
    case Create(node, status) => c.(live := c.live + [Message(node, status, None)])
    case Reply(parent, node, status) =>
      if parent in LiveIds(c.live) then c.(live := c.live + [Message(node, status, Some(parent))]) else c
    case Remove(branch) =>
      var doomed := Doomed(c.live, branch);
      Conversations(Kept(c.live, doomed), c.gone + doomed + StatusIds(c.live, doomed))
    case Restart => c
  }

  function Replay(ops: seq<Op>): Conversations {
    if ops == [] then Conversations([], {}) else Replied(Replay(ops[..|ops| - 1]), ops[|ops| - 1])
  }

  ghost predicate Agrees(repo: TreeRepository, c: Conversations)
    reads repo, repo.trees.Values
  {
    Mirrors(c.live, repo.Forest(), repo.ledger.home) && repo.ledger.gone == c.gone
  }

  lemma IsRooted(repo: TreeRepository)
    requires repo.Valid()
    ensures Rooted(repo.Forest(), repo.Depths(), repo.ledger.home)
  {
    forall r | r in repo.trees
      ensures RootedAt(repo.trees[r].nodes, r, repo.trees[r].depth, repo.ledger.home)
    {
      var t := repo.trees[r];
      assert Fits(t, r, repo.ledger, repo.nodeToTree);
      assert forall x :: x in t.nodes ==> Known(repo.ledger, repo.nodeToTree, r, x, t.nodes[x].status);
    }
  }

  lemma ParentIsLive(repo: TreeRepository, c: Conversations, id: Id)
    requires Agrees(repo, c)
    ensures id in LiveIds(c.live) <==> repo.Live(id)
  {
    LiveIdsAre(c.live, id);
    if m :| m in c.live && m.node == id {
      assert Placed(m, repo.Forest(), repo.ledger.home);
    }
    if r :| r in repo.trees && id in repo.trees[r].nodes {
      assert r in repo.Forest() && id in repo.Forest()[r];
    }
  }

  lemma SameForest(repo: TreeRepository, copy: TreeRepository)
    requires repo.ToDict() == copy.ToDict()
    ensures repo.Forest() == copy.Forest()
  {
    assert repo.ToDict().trees == copy.ToDict().trees;
    forall r | r in repo.trees
      ensures r in copy.trees && repo.trees[r].nodes == copy.trees[r].nodes
    {
      assert repo.ToDict().trees[r] == copy.ToDict().trees[r];
    }
    assert forall r :: r in copy.trees ==> r in copy.ToDict().trees;
  }

  lemma ResolvedIsLive(repo: TreeRepository, c: Conversations, msg: Id)
    requires repo.Valid() && Agrees(repo, c)
    ensures repo.Resolve(msg).Some? ==>
              exists m :: m in c.live && m.node == repo.Resolve(msg).value && (m.node == msg || m.status == msg)
  {
    repo.ResolveIsRight(msg);
    if repo.Resolve(msg).Some? {
      var n := repo.Resolve(msg).value;
      var r :| r in repo.trees && n in repo.trees[r].nodes && (n == msg || repo.trees[r].nodes[n].status == msg);
      RootOfNode(repo, r, n);
      assert n in repo.Forest()[r];
      LiveIdsAre(c.live, n);
      var m :| m in c.live && m.node == n;
      assert Placed(m, repo.Forest(), repo.ledger.home);
    }
  }

  lemma RootOfNode(repo: TreeRepository, r: Id, n: Id)
    requires repo.Valid() && r in repo.trees && n in repo.trees[r].nodes
    ensures n in repo.ledger.home && repo.ledger.home[n] == r
  {
    IsRooted(repo);
    assert RootedAt(repo.Forest()[r], r, repo.Depths()[r], repo.ledger.home);
  }

  /** A live message is what its ids resolve to. */
  lemma LiveIsResolved(repo: TreeRepository, c: Conversations, m: Message, msg: Id)
    requires repo.Valid() && repo.ledger.pending == {} && Agrees(repo, c) && m in c.live && (m.node == msg || m.status == msg)
    ensures repo.Resolve(msg) == Some(m.node)
  {
    repo.ResolveIsRight(msg);
    assert Placed(m, repo.Forest(), repo.ledger.home);
  }

  lemma AnswersAgree(repo: TreeRepository, c: Conversations)
    requires repo.Valid() && repo.ledger.pending == {} && Agrees(repo, c)
    ensures forall msg :: repo.Resolve(msg) == Answer(c.live, msg)
    ensures forall msg :: msg in c.gone ==> repo.Resolve(msg) == None
  {
    forall msg
      ensures repo.Resolve(msg) == Answer(c.live, msg) && (msg in c.gone ==> repo.Resolve(msg) == None)
    {
      repo.ResolveIsRight(msg);
      ResolvedIsLive(repo, c, msg);
      AnswerIs(c.live, msg);
      hide TreeRepository.Valid, TreeRepository.Resolve, Answer;
      if m :| m in c.live && Answer(c.live, msg) == Some(m.node) && (m.node == msg || m.status == msg) {
        LiveIsResolved(repo, c, m, msg);
      }
    }
  }

  /** After any run with fresh ids, an id resolves to what the list of live messages says: the live
      message that it is or whose status message it is. The ids of the branches cleared, with their
      status ids, resolve to none. */
  method Run(ops: seq<Op>) returns (repo: TreeRepository)
    requires FreshIds(ops)
    ensures repo.Valid() && repo.ledger.pending == {} && Agrees(repo, Replay(ops))
    ensures forall msg :: repo.Resolve(msg) == Answer(Replay(ops).live, msg)
    ensures forall msg :: msg in Replay(ops).gone ==> repo.Resolve(msg) == None
  {
    repo := new TreeRepository();
    assert ops[..0] == [];
    for k := 0 to |ops|
      invariant fresh(repo) && repo.Valid() && repo.ledger.pending == {} && repo.ledger.home.Keys <= AllNewIds(ops[..k])
      invariant Agrees(repo, Replay(ops[..k]))
      invariant forall r :: r in repo.trees ==> fresh(repo.trees[r])
    {
      PrefixIsFresh(ops, k);
      assert ops[..k + 1][..k] == ops[..k];
      assert Replay(ops[..k + 1]) == Replied(Replay(ops[..k]), ops[k]);
      hide *;
      repo := Handle(repo, ops[k], Replay(ops[..k]));
    }
    assert ops[..|ops|] == ops;
    AnswersAgree(repo, Replay(ops));
  }

  lemma {:induction false} PrefixIsFresh(ops: seq<Op>, k: nat)
    requires FreshIds(ops) && k < |ops|
    ensures NewIds(ops[k]) !! AllNewIds(ops[..k]) && (ops[k].Create? || ops[k].Reply? ==> ops[k].node != ops[k].status)
    ensures AllNewIds(ops[..k + 1]) == AllNewIds(ops[..k]) + NewIds(ops[k])
  {
    assert ops[..k + 1][..k] == ops[..k];
    if k + 1 < |ops| {
      var init := ops[..|ops| - 1];
      PrefixIsFresh(init, k);
      assert init[..k] == ops[..k];
    } else {
      assert ops[..k + 1] == ops;
    }
  }

  /** One operation does to the repository what it does to the list of live messages. */
  method Handle(repo: TreeRepository, op: Op, ghost c: Conversations) returns (next: TreeRepository)
    requires repo.Valid() && repo.ledger.pending == {} && NewIds(op) !! repo.ledger.home.Keys
    requires op.Create? || op.Reply? ==> op.node != op.status
    requires Agrees(repo, c)
    modifies repo, repo.trees.Values
    ensures next == repo || fresh(next)
    ensures next.Valid() && next.ledger.pending == {} && next.ledger.home.Keys <= old(repo.ledger).home.Keys + NewIds(op)
    ensures forall r :: r in next.trees ==> fresh(next.trees[r]) || next.trees[r] in old(repo.trees).Values
    ensures Agrees(next, Replied(c, op))
  {
    hide Mirrors, TreeRepository.Valid, TreeRepository.Forest, Kept, Doomed, LiveIds, StatusIds;
    next := repo;
    match op {
      case Create(node, status) =>
        Open(repo, node, status, c);
      case Reply(parent, node, status) =>
        Extend(repo, parent, node, status, c);
      case Remove(branch) =>
        Clear(repo, branch, c);
      case Restart =>
        next := StoreAndRestore(repo);
        SameForest(repo, next);
    }
  }

  /** A message that replies to nothing. */
  method Open(repo: TreeRepository, node: Id, status: Id, ghost c: Conversations)
    requires repo.Valid() && repo.ledger.pending == {} && Agrees(repo, c)
    requires node !in repo.ledger.home && status !in repo.ledger.home && node != status
    modifies repo`trees, repo`nodeToTree, repo`ledger
    ensures repo.Valid() && repo.ledger.pending == {} && repo.ledger.home.Keys == old(repo.ledger).home.Keys + {node, status}
    ensures forall r :: r in repo.trees ==> fresh(repo.trees[r]) || repo.trees[r] in old(repo.trees).Values
    ensures Agrees(repo, Replied(c, Create(node, status)))
  {
    hide Mirrors, Rooted, Linked, Indexed, AllKnown, Known, NoDup, LiveIds, Kept, Doomed, WithNode, Registered, TreeRepository.Forest, TreeRepository.Depths, TreeRepository.Valid, TreeRepository.TreeFor;
    IsRooted(repo);
    CreatedMirrors(c.live, repo.Forest(), repo.Depths(), repo.ledger.home, node, status);
    NewIdsKept(repo.ledger, node, status);
    var _ := repo.CreateTree(node, status);
    repo.RegisterNode(status, node);
  }

  /** The ledger once a new conversation and its status message are known. */
  lemma NewIdsKept(l: Ledger, node: Id, status: Id)
    requires l.pending == {}
    ensures WithNode(l, node, status, node).home == l.home[node := node][status := node]
    ensures var after := Registered(WithNode(l, node, status, node), status);
            after.pending == {} && after.home == l.home[node := node][status := node] && after.gone == l.gone
  {
  }

  /** A message that replies to another. */
  method Extend(repo: TreeRepository, parent: Id, node: Id, status: Id, ghost c: Conversations)
    requires repo.Valid() && repo.ledger.pending == {} && Agrees(repo, c)
    requires node !in repo.ledger.home && status !in repo.ledger.home && node != status
    modifies repo`nodeToTree, repo`ledger, repo.trees.Values
    ensures repo.Valid() && repo.ledger.pending == {} && repo.ledger.home.Keys <= old(repo.ledger).home.Keys + {node, status}
    ensures Agrees(repo, Replied(c, Reply(parent, node, status)))
  {
    hide Mirrors, Linked, Indexed, AllKnown, Known, NoDup, Grown, LiveIds, Kept, Doomed, TreeRepository.Forest, TreeRepository.Valid, TreeRepository.TreeFor, TreeRepository.Live;
    ghost var live, grown, homes := ExtendReady(repo, parent, node, status, c);
    var ok := repo.AddToTree(parent, node, status);
    if ok {
      repo.RegisterNode(status, repo.nodeToTree[node]);
    }
  }

  lemma ExtendReady(repo: TreeRepository, parent: Id, node: Id, status: Id, c: Conversations)
    returns (live: bool, grown: map<Id, map<Id, Node>>, homes: map<Id, Id>)
    requires repo.Valid() && Agrees(repo, c) && node !in repo.ledger.home && status !in repo.ledger.home && node != status
    ensures live == repo.Live(parent) && live == (parent in LiveIds(c.live))
    ensures live ==> parent in repo.nodeToTree && repo.nodeToTree[parent] in repo.trees
    ensures live ==>
              var root := repo.nodeToTree[parent];
              && parent in repo.trees[root].nodes && grown == repo.Forest()[root := Grown(repo.trees[root].nodes, node, status, parent)]
              && homes == repo.ledger.home[node := root][status := root]
              && Mirrors(c.live + [Message(node, status, Some(parent))], grown, homes)
  {
    ParentIsLive(repo, c, parent);
    repo.LiveIsMapped(parent);
    live := repo.Live(parent);
    grown, homes := repo.Forest(), repo.ledger.home;
    if live {
      var root := repo.nodeToTree[parent];
      repo.NewIdsSpareTheRest(node, status, root);
      RepliedMirrors(c.live, repo.Forest(), repo.ledger.home, root, parent, node, status);
      grown, homes := repo.Forest()[root := Grown(repo.trees[root].nodes, node, status, parent)], repo.ledger.home[node := root][status := root];
    }
  }

  /** Clearing a branch. */
  method Clear(repo: TreeRepository, branch: Id, ghost c: Conversations)
    requires repo.Valid() && repo.ledger.pending == {} && Agrees(repo, c)
    modifies repo, repo.trees.Values
    ensures repo.Valid() && repo.ledger.pending == {} && repo.ledger.home == old(repo.ledger).home
    ensures repo.trees.Values <= old(repo.trees).Values
    ensures Agrees(repo, Replied(c, Remove(branch)))
  {
    hide Mirrors, Linked, Indexed, AllKnown, Known, Subtree, Ids, NoDup, Felled, Kept, Doomed, StatusesOf, StatusIds, TreeRepository.Forest, TreeRepository.Valid, TreeRepository.TreeFor;
    ClearReady(repo, branch, c);
    var _, _, _ := repo.RemoveBranch(branch);
  }

  /** What clearing the branch will make of the trees and of the list. */
  lemma ClearReady(repo: TreeRepository, branch: Id, c: Conversations)
    requires repo.Valid() && Agrees(repo, c)
    ensures repo.TreeFor(branch).None? ==> ClearsNothing(repo, None, branch, c)
    ensures repo.TreeFor(branch).Some? ==>
              var t := repo.TreeFor(branch).value;
              t.Shape() && if branch in t.nodes then ClearsSubtree(repo, t, branch, c) else ClearsNothing(repo, Some(t.rootId), branch, c)
    ensures repo.TreeFor(branch).Some? ==> StatusesOf(repo.TreeFor(branch).value.nodes, {}) == {}
    ensures Ids([]) == {} && repo.ledger.gone + {} + {} == repo.ledger.gone
  {
    ParentIsLive(repo, c, branch);
    repo.LiveIsMapped(branch);
    IsRooted(repo);
    if repo.TreeFor(branch).Some? {
      repo.AtHome(branch);
    }
    hide Linked, Indexed, Mirrors, Doomed, Kept, LiveIds, Rooted, Felled, Subtree, TreeRepository.Valid, TreeRepository.Forest, TreeRepository.Live;
    if branch in LiveIds(c.live) {
      ClearLive(repo, repo.TreeFor(branch).value, branch, c);
    } else {
      NothingDoomed(c.live, branch);
      KeepAll(c.live);
      NotThere(repo, if repo.TreeFor(branch).Some? then Some(repo.TreeFor(branch).value.rootId) else None, branch);
    }
  }

  lemma NotThere(repo: TreeRepository, root: Option<Id>, branch: Id)
    requires !repo.Live(branch)
    ensures Felled(repo.Forest(), root, branch, {}) == repo.Forest()
  {
  }

  ghost predicate ClearsNothing(repo: TreeRepository, root: Option<Id>, branch: Id, c: Conversations)
    reads repo, repo.trees.Values
  {
    && Doomed(c.live, branch) == {} && StatusIds(c.live, {}) == {}
    && Mirrors(Kept(c.live, {}), Felled(repo.Forest(), root, branch, {}), repo.ledger.home)
  }

  ghost predicate ClearsSubtree(repo: TreeRepository, t: MessageTree, branch: Id, c: Conversations)
    requires t.Shape()
    reads repo, repo.trees.Values, t
  {
    var doomed := Doomed(c.live, branch);
    && doomed == Subtree(t.nodes, t.rootId, t.depth, false, branch)
    && Mirrors(Kept(c.live, doomed), Felled(repo.Forest(), Some(t.rootId), branch, doomed), repo.ledger.home)
    && StatusesOf(t.nodes, doomed) == StatusIds(c.live, doomed)
  }

  lemma ClearLive(repo: TreeRepository, t: MessageTree, branch: Id, c: Conversations)
    requires Rooted(repo.Forest(), repo.Depths(), repo.ledger.home) && Agrees(repo, c)
    requires t.Shape() && t.rootId in repo.trees && repo.trees[t.rootId] == t && branch in t.nodes
    ensures ClearsSubtree(repo, t, branch, c)
  {
    assert RootedAt(repo.Forest()[t.rootId], t.rootId, repo.Depths()[t.rootId], repo.ledger.home);
    FelledMirrors(c.live, repo.Forest(), repo.Depths(), repo.ledger.home, t.rootId, branch);
    hide Mirrors, Doomed, Kept, Subtree, Felled, StatusesOf, StatusIds, Rooted;
  }

  method Listed(s: set<Id>) returns (list: seq<Id>)
    ensures NoDup(list) && Ids(list) == s
  {
    list := [];
    var left := s;
    while left != {}
      invariant NoDup(list) && left <= s && Ids(list) == s - left
      decreases |left|
    {
      var x :| x in left;
      assert x !in Ids(list);
      NoDupConcat(list, [x]);
      IdsConcat(list, [x]);
      left := left - {x};
      list := list + [x];
    }
  }
}
