/**
 tools/sear: exhaustive search of an unknown decision tree.  The searcher
 restarts the machine at the root after every scenario and remembers, in a
 tree of nodes with parent pointers, which branches are finished.
 */
module Searcher {
  import opened Prelude
  import opened DecisionTree

  /** A deterministic machine with a finite decision tree; `runs` records the branches taken since each Initialize. */
  class DecisionMachine {
    const tree: Tree
    var here: Tree
    var runs: seq<Path>

    constructor (tree: Tree)
      ensures this.tree == tree && runs == []
    {
      this.tree, here, runs := tree, tree, [];
    }

    method Initialize()
      modifies this
      ensures here == tree && runs == old(runs) + [[]]
    {
      here, runs := tree, runs + [[]];
    }

    method GetInitPaths() returns (n: nat)
      ensures n == |tree.kids|
    {
      n := |tree.kids|;
    }

    method Forward(branch: nat) returns (n: nat)
      requires branch < |here.kids| && runs != []
      modifies this
      ensures here == old(here).kids[branch] && n == |here.kids|
      ensures runs == old(runs)[..|old(runs)| - 1] + [old(runs)[|old(runs)| - 1] + [branch]]
    {
      here, runs := here.kids[branch], runs[..|runs| - 1] + [runs[|runs| - 1] + [branch]];
      n := |here.kids|;
    }
  }

  class ScenarioNode {
    const parent: ScenarioNode?
    var children: seq<ScenarioNode>
    var isFinal: bool
    var isSearched: bool

    ghost const path: Path // the branches that lead here
    ghost const sub: Tree // the decisions that follow

    constructor (parent: ScenarioNode?, ghost path: Path, ghost sub: Tree)
      ensures this.parent == parent && this.path == path && this.sub == sub && children == [] && !isFinal && !isSearched
    {
      this.parent, children, isFinal, isSearched := parent, [], false, false;
      this.path, this.sub := path, sub;
    }

    method FirstUnsearched() returns (i: nat)
      ensures i <= |children| && (i < |children| ==> !children[i].isSearched)
      ensures forall j :: 0 <= j < i ==> children[j].isSearched
    {
      i := 0;
      while i < |children| && children[i].isSearched
        invariant i <= |children| && forall j :: 0 <= j < i ==> children[j].isSearched
      {
        i := i + 1;
      }
    }
  }

  function Up(p: Path): Path
    requires p != []
  {
    p[..|p| - 1]
  }

  lemma {:induction false} PathSnoc(t: Tree, p: Path, i: nat)
    requires IsPath(t, p)
    ensures IsPath(t, p + [i]) <==> i < |Sub(t, p).kids|
    ensures i < |Sub(t, p).kids| ==> Sub(t, p + [i]) == Sub(t, p).kids[i]
    decreases |p|
  {
    if p == [] {
      assert [] + [i] == [i] && [i][1..] == [];
      assert IsPath(t, [i]) <==> i < |t.kids|;
      assert i < |t.kids| ==> Sub(t, [i]) == Sub(t.kids[i], [i][1..]) == t.kids[i];
    } else {
      assert (p + [i])[1..] == p[1..] + [i];
      PathSnoc(t.kids[p[0]], p[1..], i);
    }
  }

  lemma {:induction false} LastSnoc(t: Tree, r: Path, i: nat)
    requires IsPath(t, r + [i])
    ensures IsPath(t, r) && (AllLast(t, r + [i]) <==> AllLast(t, r) && i + 1 == |Sub(t, r).kids|)
    decreases |r|
  {
    if r == [] {
      assert [] + [i] == [i] && [i][1..] == [];
    } else {
      assert (r + [i])[1..] == r[1..] + [i];
      LastSnoc(t.kids[r[0]], r[1..], i);
    }
  }

  lemma {:induction false} ChildBefore(p: Path, i: nat, q: Path)
    requires p <= q && |p| < |q|
    ensures Before(p + [i], q) <==> i < q[|p|]
    decreases |p|
  {
    if p == [] {
      assert [] + [i] == [i] && [i][1..] == [];
    } else {
      assert (p + [i])[1..] == p[1..] + [i];
      assert p[1..] <= q[1..];
      ChildBefore(p[1..], i, q[1..]);
    }
  }

  lemma {:induction false} PrefixIsPath(t: Tree, p: Path, q: Path)
    requires IsPath(t, q) && p <= q
    ensures IsPath(t, p)
    decreases |p|
  {
    if p != [] {
      assert p[1..] <= q[1..];
      PrefixIsPath(t.kids[p[0]], p[1..], q[1..]);
    }
  }

  /** p is the last leaf below its proper prefix q. */
  ghost predicate Completes(t: Tree, q: Path, p: Path)
  {
    IsPath(t, q) && q <= p && q != p && IsPath(Sub(t, q), p[|q|..]) && AllLast(Sub(t, q), p[|q|..])
  }

  lemma CompletesUp(t: Tree, q: Path, p: Path)
    requires IsPath(t, q) && IsPath(t, p) && p != [] && IsPath(t, Up(p))
    ensures Completes(t, q, p) <==>
            p[|p| - 1] + 1 == |Sub(t, Up(p)).kids| && (q == Up(p) || Completes(t, q, Up(p)))
  {
    var up, i := Up(p), p[|p| - 1];
    assert p == up + [i];
    if q <= p && q != p {
      assert q <= up;
      var r := up[|q|..];
      assert p[|q|..] == r + [i];
      SubPath(t, q, up);
      SubPath(t, q, p);
      LastSnoc(Sub(t, q), r, i);
      if q == up { assert r == []; }
    } else {
      assert !(q <= up);
    }
  }

  /** Finishing the next leaf marks the leaf itself and the ancestors it completes. */
  lemma AfterLeaf(t: Tree, next: Option<Path>, p: Path, q: Path)
    requires IsPath(t, p) && IsPath(t, q) && q != [] && Sub(t, p).kids == []
    requires next.None? || (IsLeaf(t, next.value) && p <= next.value)
    ensures next.Some? ==> p == next.value
    ensures Passed(if next.None? then None else Next(t, next.value), q) <==> Passed(next, q) || q == p || Completes(t, q, p)
  {
    if next.Some? {
      SubPath(t, p, next.value);
      assert p == next.value;
      MovingOn(t, p, q);
      if q == p { assert p[|p|..] == []; }
    }
  }

  function Down(p: Path, i: nat): (q: Path)
    ensures q != [] && Up(q) == p && q[|q| - 1] == i && |q| == |p| + 1
  {
    p + [i]
  }

  /** The paths of the children of the node at p. */
  ghost function Names<T>(p: Path, kids: seq<T>): (m: map<Path, T>)
    ensures forall i: nat :: i < |kids| ==> Down(p, i) in m && m[Down(p, i)] == kids[i]
    ensures forall q :: q in m ==> q != [] && Up(q) == p && q[|q| - 1] < |kids| && m[q] == kids[q[|q| - 1]] && q == Down(p, q[|q| - 1])
  {
    map q | q in (set i: nat | i < |kids| :: Down(p, i)) :: kids[q[|q| - 1]]
  }

  class ScenarioMap {
    const root: ScenarioNode
    var current: ScenarioNode
    ghost const tree: Tree
    ghost var at: map<Path, ScenarioNode>

    /** The nodes form a part of the decision tree, each reached by its own path. */
    ghost predicate Shape()
      reads this`at, at.Values`children, at.Values`isFinal
    {
      && [] in at && at[[]] == root
      && (forall p :: p in at ==> at[p].path == p)
      && (forall p {:trigger NodeOk(p)} :: p in at ==> NodeOk(p))
    }

    ghost predicate NodeOk(p: Path)
      requires p in at
      reads this`at, at.Values`children, at.Values`isFinal
    {
      var x := at[p];
      && (if p == [] then x.parent == null && x.sub == tree else BelowParent(p))
      && |x.children| == (if x.isFinal then |x.sub.kids| else 0)
      && (forall i: nat :: i < |x.children| ==> Down(p, i) in at && at[Down(p, i)] == x.children[i])
    }

    ghost predicate BelowParent(p: Path)
      requires p in at && p != []
      reads this`at, at.Values`children, at.Values`isFinal
    {
      && Up(p) in at && at[p].parent == at[Up(p)] && at[Up(p)].isFinal
      && p[|p| - 1] < |at[Up(p)].sub.kids| && at[p].sub == at[Up(p)].sub.kids[p[|p| - 1]]
    }

    lemma {:induction false} Place(p: Path)
      requires Shape() && p in at
      ensures IsPath(tree, p) && Sub(tree, p) == at[p].sub
      decreases |p|
    {
      assert NodeOk(p);
      if p != [] {
        Place(Up(p));
        PathSnoc(tree, Up(p), p[|p| - 1]);
        assert p == Up(p) + [p[|p| - 1]];
      }
    }

    lemma Placed()
      requires Shape()
      ensures forall p :: p in at ==> IsPath(tree, p) && Sub(tree, p) == at[p].sub
    {
      forall p | p in at ensures IsPath(tree, p) && Sub(tree, p) == at[p].sub { Place(p); }
    }

    /** A node is marked exactly when everything below it lies before the next leaf. */
    ghost predicate Marked(next: Option<Path>)
      reads this, at.Values
    {
      forall p :: p in at && p != [] ==> (at[p].isSearched <==> Passed(next, p))
    }

    /** Every visited leaf is marked, except perhaps the one being visited. */
    ghost predicate LeavesMarked(here: Path)
      reads this, at.Values
    {
      forall p :: p in at && p != here && at[p].isFinal && at[p].children == [] ==> at[p].isSearched
    }

    constructor (ghost tree: Tree)
      ensures this.tree == tree && Shape() && current == root && at == map[[] := root]
      ensures fresh(root) && !root.isFinal
    {
      var node := new ScenarioNode(null, [], tree);
      root, current := node, node;
      this.tree := tree;
      at := map[[] := node];
    }

    ghost predicate Blank(x: ScenarioNode, parent: ScenarioNode, i: nat)
      reads x
    {
      && x.parent == parent && x.path == parent.path + [i] && i < |parent.sub.kids| && x.sub == parent.sub.kids[i]
      && x.children == [] && !x.isFinal && !x.isSearched
    }

    method CreateChildren(node: ScenarioNode, n: nat) returns (kids: seq<ScenarioNode>, ghost more: map<Path, ScenarioNode>)
      requires n == |node.sub.kids|
      ensures |kids| == n
      ensures forall i: nat :: i < n ==> Down(node.path, i) in more && more[Down(node.path, i)] == kids[i]
      ensures forall q :: q in more ==> fresh(more[q]) && q != [] && Up(q) == node.path && Blank(more[q], node, q[|q| - 1]) && more[q].path == q
    {
      kids := [];
      while |kids| < n
        invariant |kids| <= n
        invariant forall j: nat :: j < |kids| ==> fresh(kids[j]) && Blank(kids[j], node, j)
      {
        var kid := new ScenarioNode(node, node.path + [|kids|], node.sub.kids[|kids|]);
        kids := kids + [kid];
      }
      more := Names(node.path, kids);
    }

    lemma NoChildrenYet(p: Path)
      requires Shape() && p in at && !at[p].isFinal
      ensures forall q :: q in at && q != [] ==> Up(q) != p
      ensures at[p].children == []
    {
      forall q | q in at && q != [] ensures Up(q) != p { assert NodeOk(q); }
      assert NodeOk(p);
    }

    method Attach(node: ScenarioNode, kids: seq<ScenarioNode>, ghost p: Path, ghost more: map<Path, ScenarioNode>)
      requires Shape() && p in at && at[p] == node && |kids| == |node.sub.kids|
      requires forall i: nat :: i < |kids| ==> Down(p, i) in more && more[Down(p, i)] == kids[i]
      requires forall q :: q in more ==> q !in at && q != [] && Up(q) == p && Blank(more[q], node, q[|q| - 1]) && more[q].path == q
      requires forall q, r :: q in more && r in at ==> more[q] != at[r]
      modifies this`at, node`children, node`isFinal
      ensures Shape() && node.isFinal && at == old(at) + more
    {
      ghost var was := at;
      assert NodeOk(p);
      node.children := kids;
      node.isFinal := true;
      at := was + more;
      forall q | q in more ensures NodeOk(q) {
        assert BelowParent(q);
      }
      assert NodeOk(p);
      forall q | q in was && q != p ensures NodeOk(q) {
        assert old(NodeOk(q));
      }
    }

    /** openScenarioPaths: its panic, a changed number of branches, is excluded by the requires. */
    method OpenScenarioPaths(node: ScenarioNode, n: nat, ghost p: Path)
      requires Shape() && p in at && at[p] == node && n == |node.sub.kids|
      modifies this`at, node`children, node`isFinal
      ensures Shape() && node.isFinal
      ensures forall q :: q in old(at) ==> q in at && at[q] == old(at)[q]
      ensures forall q :: q in at && q !in old(at) ==> fresh(at[q]) && q != [] && Blank(at[q], node, q[|q| - 1])
      ensures old(node.isFinal) ==> at == old(at)
    {
      if node.isFinal {
        assert NodeOk(p);
        if |node.children| != n { // "scenario path overwritten"
          assert false;
        }
        return;
      }
      NoChildrenYet(p);
      var kids;
      ghost var more;
      kids, more := CreateChildren(node, n);
      Attach(node, kids, p, more);
    }

    /** A node is the last child of its parent exactly if its branch is the last one. */
    lemma LastChild(p: Path)
      requires Shape() && p in at && p != []
      ensures Up(p) in at && at[p].parent == at[Up(p)]
      ensures var siblings := at[Up(p)].children;
              siblings != [] && (siblings[|siblings| - 1] == at[p] <==> p[|p| - 1] + 1 == |at[Up(p)].sub.kids|)
    {
      var up: Path, i := Up(p), p[|p| - 1];
      assert NodeOk(p) && NodeOk(up);
      var siblings := at[up].children;
      assert Down(up, i) == p && siblings[i] == at[p];
      assert siblings[|siblings| - 1].path == up + [|siblings| - 1];
      assert (up + [|siblings| - 1])[|up|] == |siblings| - 1 && p[|up|] == i;
    }

    lemma CompletesAbove(p: Path)
      requires Shape() && p in at && p != []
      ensures Up(p) in at && forall q :: q in at ==>
                (Completes(tree, q, p) <==> p[|p| - 1] + 1 == |at[Up(p)].sub.kids| && (q == Up(p) || Completes(tree, q, Up(p))))
    {
      Placed();
      assert NodeOk(p) && p == Up(p) + [p[|p| - 1]];
      PathSnoc(tree, Up(p), p[|p| - 1]);
      forall q | q in at
        ensures Completes(tree, q, p) <==> p[|p| - 1] + 1 == |at[Up(p)].sub.kids| && (q == Up(p) || Completes(tree, q, Up(p))) {
        CompletesUp(tree, q, p);
      }
    }

    /** _mark_searched_parent_nodes: marks every ancestor of p that p completes. */
    method MarkParents(node: ScenarioNode, ghost p: Path)
      requires Shape() && p in at && at[p] == node
      modifies at.Values`isSearched
      ensures Shape()
      ensures forall q :: q in at ==> (at[q].isSearched <==> old(at[q].isSearched) || Completes(tree, q, p))
      decreases |p|
    {
      assert NodeOk(p);
      if node.parent == null {
        return;
      }
      LastChild(p);
      CompletesAbove(p);
      var siblings := node.parent.children;
      if siblings[|siblings| - 1] == node {
        node.parent.isSearched := true;
        MarkParents(node.parent, Up(p));
      }
    }

    ghost predicate At(next: Option<Path>, p: Path)
      reads this, at.Values
    {
      && Shape() && Marked(next) && Untouched(next) && LeavesMarked(p) && p in at && at[p].isFinal
      && (next.None? ==> p == [])
      && (next.Some? ==> IsLeaf(tree, next.value) && p <= next.value)
    }

    /** An inner node on the way to the next leaf has the child that leads there, and it is not marked. */
    lemma OnTheWay(next: Option<Path>, p: Path)
      requires At(next, p) && next.Some? && at[p].children != []
      ensures |p| < |next.value| && next.value[|p|] < |at[p].children|
      ensures !at[p].children[next.value[|p|]].isSearched
    {
      assert NodeOk(p);
      Place(p);
      if p == next.value { assert false; }
      var b := next.value[|p|];
      assert next.value[..|p| + 1] == p + [b];
      PrefixIsPath(tree, p + [b], next.value);
      PathSnoc(tree, p, b);
      ChildBefore(p, b, next.value);
    }

    /** The first unmarked child is the one that leads to the next leaf, and it is no leaf visited before. */
    lemma Unsearched(next: Option<Path>, p: Path, i: nat)
      requires At(next, p) && i < |at[p].children| && !at[p].children[i].isSearched
      requires forall j :: 0 <= j < i ==> at[p].children[j].isSearched
      ensures next.Some? && p != next.value && i == next.value[|p|] && p + [i] in at && at[p].children[i] == at[p + [i]]
      ensures !(at[p + [i]].isFinal && at[p + [i]].children == [])
    {
      assert NodeOk(p);
      assert !Passed(next, p + [i]);
      OnTheWay(next, p);
      ChildBefore(p, i, next.value);
      assert NodeOk(p + [i]);
    }

    lemma LeafDone(next: Option<Path>, p: Path, after: Option<Path>)
      requires At(next, p) && at[p].children == []
      requires after == if next.None? then None else Next(tree, next.value)
      ensures next.Some? ==> p == next.value
      ensures forall q :: q in at && q != [] ==> (Passed(after, q) <==> Passed(next, q) || q == p || Completes(tree, q, p))
      ensures Untouched(after) && at[[]].isFinal
    {
      assert NodeOk(p);
      Place(p);
      forall q | q in at && q != [] ensures Passed(after, q) <==> Passed(next, q) || q == p || Completes(tree, q, p) {
        Place(q);
        AfterLeaf(tree, next, p, q);
      }
      PrefixFinal(p, []);
      if next.Some? {
        SubPath(tree, p, next.value);
        StillUntouched(p);
      }
    }

    method MarkLeaf(node: ScenarioNode, ghost p: Path)
      requires Shape() && p in at && at[p] == node
      modifies at.Values`isSearched
      ensures Shape()
      ensures forall q :: q in at ==> (at[q].isSearched <==> old(at[q].isSearched) || q == p || Completes(tree, q, p))
    {
      node.isSearched := true;
      MarkParents(node, p);
    }

    /** The end of a scenario: its leaf and every ancestor it completes are marked. */
    method FinishLeaf(node: ScenarioNode, ghost next: Option<Path>, ghost p: Path, ghost after: Option<Path>)
      requires At(next, p) && node == at[p] && node.children == []
      requires after == if next.None? then None else Next(tree, next.value)
      modifies this`current, at.Values`isSearched
      ensures current == root && At(after, [])
      ensures next.Some? ==> p == next.value
    {
      LeafDone(next, p, after);
      MarkLeaf(node, p);
      current := root;
    }

    /** `after` is the next leaf afterwards and `there` the path of the current node's parent, or of the root. */
    method TryGetNextSearchBranch(ghost next: Option<Path>, ghost p: Path)
      returns (branch: int, isEnd: bool, ok: bool, ghost after: Option<Path>, ghost there: Path)
      requires At(next, p) && current == at[p]
      modifies this`current, at.Values`isSearched
      ensures At(after, there)
      ensures ok <==> next.Some? || tree.kids == []
      ensures !ok ==> after == next && there == p && current == old(current)
      ensures ok ==> (branch == -1 <==> isEnd) && (isEnd <==> next.None? || p == next.value)
      ensures ok && isEnd ==> there == [] && current == root && after == if next.None? then None else Next(tree, next.value)
      ensures ok && !isEnd ==> there == p && after == next && branch == next.value[|p|] && 0 <= branch < |at[p].children|
      ensures ok && !isEnd ==> p + [branch] in at && at[p].children[branch] == current == at[p + [branch]]
    {
      assert NodeOk(p);
      var node := current;
      var i := node.FirstUnsearched();
      if i < |node.children| {
        var child := node.children[i];
        Unsearched(next, p, i);
        if child.isFinal && |child.children| == 0 { // a finished leaf is marked already
          assert false;
        }
        current := child;
        return i, false, true, next, p;
      }
      if |node.children| == 0 {
        after := if next.None? then None else Next(tree, next.value);
        FinishLeaf(node, next, p, after);
        return -1, true, true, after, [];
      }
      if next.Some? { OnTheWay(next, p); }
      return -1, false, false, next, p;
    }

    // ---- what an untouched node says about the next leaf ----

    /** A node whose children are not created lies on the way to the next leaf only if that leaf is its first. */
    ghost predicate Untouched(next: Option<Path>)
      reads this`at, at.Values`isFinal
    {
      forall p :: p in at && !at[p].isFinal && next.Some? && p <= next.value ==> next.value[|p|..] == First(at[p].sub)
    }

    lemma {:induction false} PrefixFinal(p: Path, r: Path)
      requires Shape() && p in at && at[p].isFinal && r <= p
      ensures r in at && at[r].isFinal
      decreases |p|
    {
      if r != p {
        assert NodeOk(p);
        PrefixFinal(Up(p), r);
      }
    }

    lemma StillUntouched(q: Path)
      requires Shape() && IsLeaf(tree, q) && q in at && at[q].isFinal
      ensures Untouched(Next(tree, q))
    {
      var next := Next(tree, q);
      forall p | p in at && !at[p].isFinal && next.Some? && p <= next.value ensures next.value[|p|..] == First(at[p].sub) {
        if p <= q { PrefixFinal(q, p); }
        NextFirst(tree, q, p);
        Place(p);
      }
    }

    lemma OneDown(next: Path, p: Path, i: nat)
      requires At(Some(next), p) && i < |at[p].children| && |p| < |next| && i == next[|p|]
      ensures p + [i] in at && p + [i] <= next && |at[p].children| == |at[p].sub.kids| && at[p + [i]].sub == at[p].sub.kids[i]
      ensures forall q :: q in at && at[q].isFinal && at[q].children == [] ==> at[q].isSearched
    {
      assert NodeOk(p);
      assert Down(p, i) == p + [i];
      assert NodeOk(p + [i]);
    }

    /** Opening the next node on the way to the next leaf keeps the marks exact. */
    method Enter(node: ScenarioNode, n: nat, ghost next: Path, ghost p: Path)
      requires Shape() && IsLeaf(tree, next) && p <= next && p in at && at[p] == node && n == |node.sub.kids|
      requires Marked(Some(next)) && Untouched(Some(next))
      requires forall q :: q in at && at[q].isFinal && at[q].children == [] ==> at[q].isSearched
      modifies this`at, node`children, node`isFinal
      ensures At(Some(next), p) && at[p] == node
      ensures forall q :: q in old(at) ==> q in at && at[q] == old(at)[q]
      ensures forall q :: q in at && q !in old(at) ==> fresh(at[q])
    {
      OpenScenarioPaths(node, n, p);
      forall q | q in at && q !in old(at)
        ensures !Passed(Some(next), q) && (q <= next ==> next[|q|..] == First(at[q].sub))
      {
        assert q == p + [q[|q| - 1]];
        NewChild(next, p, q[|q| - 1], node.sub);
      }
    }
  }

  /** A child of a node that is opened on the way to the next leaf: not passed yet, and itself on the way only if it is the first. */
  lemma NewChild(next: Path, p: Path, i: nat, sub: Tree)
    requires p <= next && next[|p|..] == First(sub) && i < |sub.kids|
    ensures !Passed(Some(next), p + [i]) && (p + [i] <= next ==> next[|p| + 1..] == First(sub.kids[i]))
  {
    assert First(sub) == [0] + First(sub.kids[0]);
    assert next[|p|..][0] == 0 && next[|p|..][1..] == First(sub.kids[0]);
    ChildBefore(p, i, next);
  }

  class ScenarioSearcher {
    const scenarioMap: ScenarioMap
    const machine: DecisionMachine

    constructor (machine: DecisionMachine)
      ensures this.machine == machine && scenarioMap.tree == machine.tree
      ensures fresh(scenarioMap) && fresh(scenarioMap.root) && scenarioMap.current == scenarioMap.root
      ensures scenarioMap.Shape() && scenarioMap.at == map[[] := scenarioMap.root] && !scenarioMap.root.isFinal
    {
      this.machine := machine;
      scenarioMap := new ScenarioMap(machine.tree);
    }

    /** Every scenario before `next` has been run, and the machine is at p on the way there. */
    ghost predicate On(next: Option<Path>, p: Path, done: seq<Path>)
      reads this, machine, scenarioMap, scenarioMap.at.Values
    {
      && scenarioMap.At(next, p) && scenarioMap.current == scenarioMap.at[p]
      && scenarioMap.tree == machine.tree && machine.here == scenarioMap.at[p].sub && machine.runs == done + [p]
    }

    ghost predicate Between(next: Option<Path>, done: seq<Path>)
      reads this, machine, scenarioMap, scenarioMap.at.Values
    {
      On(next, [], done)
    }

    /** The rest of one turn of the inner loop, once a branch is chosen. */
    method Descend(target: ScenarioNode, branch: nat, ghost next: Path, ghost p: Path, ghost done: seq<Path>)
      returns (below: ScenarioNode)
      requires scenarioMap.At(Some(next), p) && target == scenarioMap.at[p]
      requires scenarioMap.tree == machine.tree && machine.here == target.sub && machine.runs == done + [p]
      requires branch < |target.children| && |p| < |next| && branch == next[|p|]
      requires p + [branch] in scenarioMap.at && target.children[branch] == scenarioMap.current == scenarioMap.at[p + [branch]]
      modifies machine, scenarioMap`at, scenarioMap.at.Values`children, scenarioMap.at.Values`isFinal
      ensures On(Some(next), p + [branch], done) && below == scenarioMap.at[p + [branch]]
      ensures forall q :: q in scenarioMap.at ==> scenarioMap.at[q] in old(scenarioMap.at.Values) || fresh(scenarioMap.at[q])
    {
      scenarioMap.OneDown(next, p, branch);
      below := target.children[branch];
      var paths := machine.Forward(branch);
      scenarioMap.Enter(below, paths, next, p + [branch]);
    }

    method Restart(ghost next: Option<Path>, ghost done: seq<Path>)
      requires scenarioMap.At(next, []) && scenarioMap.current == scenarioMap.root
      requires scenarioMap.tree == machine.tree && machine.runs == done
      modifies machine
      ensures Between(next, done)
    {
      assert scenarioMap.NodeOk([]);
      machine.Initialize();
    }

    /** One turn of Run's outer loop: runs exactly the next scenario, or finds that none is left. */
    method Round(ghost next: Option<Path>, ghost done: seq<Path>)
      returns (running: bool, ghost after: Option<Path>, ghost did: seq<Path>)
      requires Between(next, done)
      modifies machine, scenarioMap`current, scenarioMap`at, scenarioMap.at.Values
      ensures Between(after, did)
      ensures running <==> next.Some? || machine.tree.kids == []
      ensures after == if next.None? then None else Next(machine.tree, next.value)
      ensures did == if next.Some? then done + [next.value] else if running then done + [[]] else done
      ensures forall q :: q in scenarioMap.at ==> scenarioMap.at[q] in old(scenarioMap.at.Values) || fresh(scenarioMap.at[q])
    {
      var target := scenarioMap.root;
      ghost var p: Path := [];
      running, did := true, done;
      while true
        invariant running && On(next, p, done) && target == scenarioMap.at[p] && did == done
        invariant forall q :: q in scenarioMap.at ==> scenarioMap.at[q] in old(scenarioMap.at.Values) || fresh(scenarioMap.at[q])
        decreases if next.Some? then |next.value| - |p| else 0
      {
        var branch, isEnd, ok;
        ghost var there;
        branch, isEnd, ok, after, there := scenarioMap.TryGetNextSearchBranch(next, p);
        if !ok {
          running := false;
          break;
        }
        if branch == -1 {
          did := done + [p];
          break;
        }
        target := Descend(target, branch, next.value, p, done);
        p := p + [branch];
      }
      if running {
        Restart(after, did);
      }
    }

    ghost predicate Fresh()
      reads this, machine, scenarioMap, scenarioMap.at.Values
    {
      && scenarioMap.tree == machine.tree && machine.runs == [] && scenarioMap.Shape()
      && scenarioMap.at == map[[] := scenarioMap.root] && scenarioMap.current == scenarioMap.root && !scenarioMap.root.isFinal
    }

    method Begin()
      requires Fresh()
      modifies machine, scenarioMap`at, scenarioMap.root`children, scenarioMap.root`isFinal
      ensures Between(Some(First(machine.tree)), [])
      ensures forall q :: q in scenarioMap.at ==> scenarioMap.at[q] == scenarioMap.root || fresh(scenarioMap.at[q])
    {
      machine.Initialize();
      var paths := machine.GetInitPaths();
      assert scenarioMap.NodeOk([]);
      assert First(machine.tree)[0..] == First(machine.tree);
      scenarioMap.Enter(scenarioMap.root, paths, First(machine.tree), []);
    }

    /** Run ends, and the scenarios between successive Initialize calls are all leaves, each once, in order. */
    method Run()
      requires Fresh() && machine.tree.kids != []
      modifies machine, scenarioMap`current, scenarioMap`at, scenarioMap.root
      ensures machine.runs != [] && machine.runs[|machine.runs| - 1] == []
      ensures AllScenarios(machine.tree, machine.runs[..|machine.runs| - 1])
    {
      ghost var next, done := Some(First(machine.tree)), [];
      Begin();
      Starting(machine.tree);
      var running := true;
      while running
        invariant Between(next, done) && Progress(machine.tree, next, done)
        invariant !running ==> next.None?
        invariant forall q :: q in scenarioMap.at ==> scenarioMap.at[q] == scenarioMap.root || fresh(scenarioMap.at[q])
        decreases Left(machine.tree, next), running
      {
        if next.Some? { Advancing(machine.tree, next.value, done); }
        running, next, done := Round(next, done);
      }
      assert machine.runs[..|done|] == done;
    }

    /** The first k turns: Run has ended within them exactly when the tree has a branch and fewer than k scenarios. */
    method RunFor(k: nat) returns (running: bool)
      requires Fresh()
      modifies machine, scenarioMap`current, scenarioMap`at, scenarioMap.root
      ensures !running <==> machine.tree.kids != [] && Count(machine.tree) < k
    {
      ghost var next, done := Some(First(machine.tree)), [];
      Begin();
      Starting(machine.tree);
      running := true;
      var i := 0;
      while running && i < k
        invariant i <= k && Between(next, done)
        invariant machine.tree.kids != [] ==> Progress(machine.tree, next, done)
        invariant machine.tree.kids != [] && running ==> |done| == i
        invariant !running ==> machine.tree.kids != [] && next.None? && i == |done| + 1
        invariant forall q :: q in scenarioMap.at ==> scenarioMap.at[q] == scenarioMap.root || fresh(scenarioMap.at[q])
      {
        if next.Some? && machine.tree.kids != [] { Advancing(machine.tree, next.value, done); }
        running, next, done := Round(next, done);
        i := i + 1;
      }
    }
  }

  /** The leaves of t, each once, in lexicographic order. */
  ghost predicate AllScenarios(t: Tree, done: seq<Path>) {
    && (forall q :: q in done <==> IsLeaf(t, q))
    && (forall i, j :: 0 <= i < j < |done| ==> Before(done[i], done[j]))
    && |done| == Count(t)
  }

  /** Turns that still run a scenario. */
  ghost function Left(t: Tree, next: Option<Path>): nat
    requires next.Some? ==> IsLeaf(t, next.value)
  {
    if next.None? then 0 else Remaining(t, next.value) + 1
  }

  ghost predicate Progress(t: Tree, next: Option<Path>, done: seq<Path>) {
    && (next.Some? ==> IsLeaf(t, next.value))
    && (forall q :: q in done <==> IsLeaf(t, q) && Passed(next, q))
    && (forall i, j :: 0 <= i < j < |done| ==> Before(done[i], done[j]))
    && |done| + Left(t, next) == Count(t)
  }

  lemma Starting(t: Tree)
    ensures Progress(t, Some(First(t)), [])
  {
    FirstRemaining(t);
    forall q | IsLeaf(t, q) ensures !Before(q, First(t)) { NothingBeforeFirst(t, q); }
  }

  lemma Advancing(t: Tree, p: Path, done: seq<Path>)
    requires IsLeaf(t, p) && Progress(t, Some(p), done)
    ensures Progress(t, Next(t, p), done + [p])
    ensures Left(t, Next(t, p)) < Left(t, Some(p))
  {
    NextRemaining(t, p);
    forall q | IsLeaf(t, q) ensures Passed(Next(t, p), q) <==> Before(q, p) || q == p {
      AdvancingPasses(t, p, q);
    }
    forall q ensures q in done + [p] <==> IsLeaf(t, q) && Passed(Next(t, p), q) { }
    forall i, j | 0 <= i < j < |done + [p]| ensures Before((done + [p])[i], (done + [p])[j]) {
      if j == |done| { assert done[i] in done; }
    }
  }

  lemma AdvancingPasses(t: Tree, p: Path, q: Path)
    requires IsLeaf(t, p) && IsLeaf(t, q)
    ensures Passed(Next(t, p), q) <==> Before(q, p) || q == p
  {
    LeavesCompare(t, p, q);
    if Before(p, q) {
      NextIsNext(t, p, q);
      var n := Next(t, p).value;
      BeforeIrreflexive(q);
      if Before(q, n) {
        if q != n { BeforeTrans(q, n, q); }
      }
      if Before(q, p) { BeforeTrans(q, p, q); }
      BeforeIrreflexive(p);
    } else if Next(t, p).Some? && Before(q, p) {
      BeforeTrans(q, p, Next(t, p).value);
    }
  }
}
