/** The mutable trie of `transform/docker/devicemapper.go`. */
module DiffTries {
  import opened Paths
  import opened Lists
  import opened DiffSpec

  predicate AllSlashFree(ks: Key) { forall i :: 0 <= i < |ks| ==> SlashFree(ks[i]) }

  function ChildPath(dir: string, c: string): string { Join([dir, c]) }

  function Last(ks: Key): string
    requires ks != []
  {
    ks[|ks| - 1]
  }

  class DiffNode {
    var children: map<string, DiffNode>
    var operation: uint8
    var path: string
    ghost const position: Key  // the keys that lead to the node

    constructor (operation: uint8, path: string, ghost position: Key)
      ensures this.children == map[] && this.operation == operation && this.path == path
      ensures this.position == position
    {
      children := map[];
      this.operation := operation;
      this.path := path;
      this.position := position;
    }
  }

  /** What a node holds. */
  datatype Shape = Shape(children: map<string, DiffNode>, path: string, operation: uint8)

  /** One node per position, reached from the root by the keys of that position and in no
      other way, each holding its parent's path joined with its key. */
  ghost predicate TreeOk(nodes: map<Key, DiffNode>, shapes: map<Key, Shape>) {
    && nodes.Keys == shapes.Keys
    && [] in nodes && shapes[[]].path == "/"
    && forall ks {:trigger PlaceOk(nodes, shapes, ks)} :: ks in nodes ==> PlaceOk(nodes, shapes, ks)
  }

  ghost predicate PlaceOk(nodes: map<Key, DiffNode>, shapes: map<Key, Shape>, ks: Key)
    requires nodes.Keys == shapes.Keys && ks in nodes
  {
    && nodes[ks].position == ks
    && (ks != [] ==>
          && Parent(ks) in nodes && Last(ks) in shapes[Parent(ks)].children
          && SlashFree(Last(ks)) && shapes[ks].path == ChildPath(shapes[Parent(ks)].path, Last(ks)))
    && forall c :: c in shapes[ks].children ==> ks + [c] in nodes && shapes[ks].children[c] == nodes[ks + [c]]
  }

  /** The kinds held, position by position. */
  ghost function ViewIn(shapes: map<Key, Shape>): View {
    map ks | ks in shapes :: shapes[ks].operation
  }

  /** A leaf `leaf` is linked below `at`. */
  ghost function Grown(shapes: map<Key, Shape>, at: Key, c: string, node: DiffNode, leaf: Shape): map<Key, Shape>
    requires at in shapes
  {
    shapes[at := shapes[at].(children := shapes[at].children[c := node])][at + [c] := leaf]
  }

  /** A new leaf below an existing position keeps the tree a tree. */
  lemma TreeGrows(nodes: map<Key, DiffNode>, shapes: map<Key, Shape>, at: Key, c: string, node: DiffNode, leaf: Shape)
    requires TreeOk(nodes, shapes) && at in nodes && c !in shapes[at].children
    requires SlashFree(c) && leaf.path == ChildPath(shapes[at].path, c) && leaf.children == map[]
    requires node.position == at + [c]
    ensures at + [c] !in nodes
    ensures TreeOk(nodes[at + [c] := node], Grown(shapes, at, c, node, leaf))
  {
    var next := at + [c];
    assert Parent(next) == at && Last(next) == c;
    assert next !in nodes by { assert next in nodes ==> PlaceOk(nodes, shapes, next); }
    var nodes', shapes' := nodes[next := node], Grown(shapes, at, c, node, leaf);
    forall ks | ks in nodes' ensures PlaceOk(nodes', shapes', ks) {
      if ks != next {
        assert PlaceOk(nodes, shapes, ks);
        forall d | d in shapes'[ks].children ensures ks + [d] in nodes' && shapes'[ks].children[d] == nodes'[ks + [d]] {
          assert Parent(ks + [d]) == ks && Last(ks + [d]) == d;
        }
      }
    }
  }

  lemma ViewGrows(shapes: map<Key, Shape>, at: Key, c: string, node: DiffNode, leaf: Shape)
    requires at in shapes
    ensures ViewIn(Grown(shapes, at, c, node, leaf)) == ViewIn(shapes)[at + [c] := leaf.operation]
  {
  }

  lemma ViewMarked(shapes: map<Key, Shape>, at: Key, kind: uint8)
    requires at in shapes
    ensures ViewIn(shapes[at := shapes[at].(operation := kind)]) == ViewIn(shapes)[at := kind]
  {
  }

  /** Changing the kind at one position keeps the tree a tree. */
  lemma TreeMarked(nodes: map<Key, DiffNode>, shapes: map<Key, Shape>, at: Key, kind: uint8)
    requires TreeOk(nodes, shapes) && at in nodes
    ensures TreeOk(nodes, shapes[at := shapes[at].(operation := kind)])
  {
    var shapes' := shapes[at := shapes[at].(operation := kind)];
    forall ks | ks in nodes ensures PlaceOk(nodes, shapes', ks) {
      assert PlaceOk(nodes, shapes, ks);
    }
  }

  class DiffTrie {
    var root: DiffNode
    ghost var nodes: map<Key, DiffNode>  // every node, by the keys that lead to it

    /** The nodes form a tree, and the root is ignored. */
    ghost predicate Valid()
      reads this, nodes.Values
    {
      && TreeOk(nodes, Shapes())
      && nodes[[]] == root && root.operation == IGNORE_ITEM
    }

    /** What each node holds. */
    ghost function Shapes(): map<Key, Shape>
      reads this`nodes, nodes.Values
    {
      map ks | ks in nodes :: Shape(nodes[ks].children, nodes[ks].path, nodes[ks].operation)
    }

    ghost function ViewOf(): View
      reads this`nodes, nodes.Values
    {
      ViewIn(Shapes())
    }

    constructor ()
      ensures Valid() && fresh(nodes.Values)
      ensures ViewOf() == EMPTY_VIEW
    {
      var node := new DiffNode(IGNORE_ITEM, "/", []);
      root := node;
      nodes := map[[] := node];
    }

    method Insert(path: string, operation: uint8)
      requires Valid()
      modifies this`nodes, nodes.Values
      ensures Valid() && fresh(nodes.Values - old(nodes.Values))
      ensures ViewOf() == InsertView(old(ViewOf()), Items(path), operation)
    {
      var pathItems := Items(path);
      ghost var items := pathItems;
      ghost var before := ViewOf();
      ghost var at: Key := [];
      var curNode := root;
      while |pathItems| > 0
        invariant Valid() && fresh(nodes.Values - old(nodes.Values))
        invariant AllSlashFree(pathItems)
        invariant at in nodes && nodes[at] == curNode
        invariant DescendView(ViewOf(), at, pathItems, operation) == DescendView(before, [], items, operation)
      {
        var curPath := pathItems[0];
        var node := Descend(curNode, curPath, operation, at);
        curNode := node;
        at := at + [curPath];
        pathItems := pathItems[1..];
      }
      DescendIsInsert(before, items, operation);
    }

    /** One turn of the loop: the child at `curPath`, created if it is missing and ignored if it is not. */
    method Descend(curNode: DiffNode, curPath: string, operation: uint8, ghost at: Key) returns (node: DiffNode)
      requires Valid() && at in nodes && nodes[at] == curNode && SlashFree(curPath)
      modifies this`nodes, nodes.Values
      ensures Valid() && fresh(nodes.Values - old(nodes.Values))
      ensures at + [curPath] in nodes && nodes[at + [curPath]] == node
      ensures ViewOf() == old(ViewOf())[at + [curPath] :=
        if at + [curPath] in old(ViewOf()) then IGNORE_ITEM else operation]
    {
      ghost var before, was := ViewOf(), nodes;
      assert PlaceOk(nodes, Shapes(), at);
      assert at + [curPath] in before <==> at + [curPath] in nodes;
      if curPath !in curNode.children {
        node := new DiffNode(operation, ChildPath(curNode.path, curPath), at + [curPath]);
        assert ViewOf() == before;
        AddChild(curNode, curPath, node, at);
        assert nodes.Values <= was.Values + {node};
      } else {
        node := curNode.children[curPath];
        assert node in nodes.Values;
        MarkIgnored(curNode, curPath, node, at);
      }
    }

    /** `curNode.children[curPath] = node` for a node that is not yet in the trie. */
    method AddChild(curNode: DiffNode, curPath: string, node: DiffNode, ghost at: Key)
      requires Valid() && at in nodes && nodes[at] == curNode && curPath !in curNode.children
      requires node !in nodes.Values && node.children == map[] && node.position == at + [curPath]
      requires SlashFree(curPath) && node.path == ChildPath(curNode.path, curPath)
      modifies this`nodes, curNode`children
      ensures Valid()
      ensures at + [curPath] !in old(nodes) && nodes == old(nodes)[at + [curPath] := node]
      ensures ViewOf() == old(ViewOf())[at + [curPath] := node.operation]
    {
      ghost var before := Shapes();
      ghost var leaf := Shape(node.children, node.path, node.operation);
      TreeGrows(nodes, before, at, curPath, node, leaf);
      ViewGrows(before, at, curPath, node, leaf);
      forall ks | ks in nodes && ks != at ensures nodes[ks] != curNode {
        Unshared(ks, at);
      }
      curNode.children := curNode.children[curPath := node];
      nodes := nodes[at + [curPath] := node];
      assert Shapes() == Grown(before, at, curPath, node, leaf);
    }

    /** `node.operation = ignoreItem` for the child of `curNode` at `curPath`. */
    method MarkIgnored(curNode: DiffNode, curPath: string, node: DiffNode, ghost at: Key)
      requires Valid() && at in nodes && nodes[at] == curNode
      requires curPath in curNode.children && curNode.children[curPath] == node
      modifies node`operation
      ensures Valid()
      ensures at + [curPath] in nodes && nodes[at + [curPath]] == node
      ensures ViewOf() == old(ViewOf())[at + [curPath] := IGNORE_ITEM]
    {
      ghost var next := at + [curPath];
      assert PlaceOk(nodes, Shapes(), at);
      forall ks | ks in nodes && ks != next ensures nodes[ks] != node {
        Unshared(ks, next);
      }
      ghost var before := Shapes();
      TreeMarked(nodes, before, next, IGNORE_ITEM);
      ViewMarked(before, next, IGNORE_ITEM);
      node.operation := IGNORE_ITEM;
      assert Shapes() == before[next := before[next].(operation := IGNORE_ITEM)];
    }

    /** No node sits at two positions: the tree has no sharing and no cycle. */
    lemma Unshared(ks: Key, ks': Key)
      requires Valid() && ks in nodes && ks' in nodes
      ensures nodes[ks] == nodes[ks'] ==> ks == ks'
    {
      assert PlaceOk(nodes, Shapes(), ks) && PlaceOk(nodes, Shapes(), ks');
    }

    /** The breadth-first walk: every node is met exactly once, the shallow ones first, and
        contributes its change unless it is ignored. */
    method Filter() returns (diffs: seq<Change>, ghost order: seq<Key>)
      requires Valid()
      ensures BreadthFirst(order, ViewOf())
      ensures diffs == Emit(order, ViewOf())
    {
      diffs := [];
      order := [];
      var stack := [root];
      ghost var seen: seq<Key> := [[]];
      ghost var ns, shapes := nodes, Shapes();
      ghost var view := ViewIn(shapes);
      ghost var left := ns.Keys;
      while |stack| > 0
        invariant Walk(ns.Keys, order, seen) && Queued(ns, stack, seen, |order|)
        invariant diffs == Emit(order, view)
        invariant left == ns.Keys - Members(order)
        decreases left
      {
        ghost var at := seen[|order|];
        assert stack[0] == ns[at] && Holds(stack[0], shapes[at]);
        ghost var more;
        stack, diffs, more := Visit(stack, diffs, ns, shapes, order, seen);
        WalkOn(ns.Keys, order, seen, more);
        EmitStep(order, at, view);
        MembersStep(order, at);
        order, seen, left := order + [at], seen + more, left - {at};
      }
      assert Shapes() == shapes;
      WalkDone(ns, shapes, order, seen);
    }

    /** One turn of the loop: the first node of the queue contributes its change unless it is
        ignored, and its children join the queue. */
    static method Visit(stack: seq<DiffNode>, diffs: seq<Change>, ghost ns: map<Key, DiffNode>,
                        ghost shapes: map<Key, Shape>, ghost order: seq<Key>, ghost seen: seq<Key>)
      returns (stack': seq<DiffNode>, diffs': seq<Change>, ghost more: seq<Key>)
      requires |stack| > 0 && TreeOk(ns, shapes) && Queued(ns, stack, seen, |order|) && order <= seen
      requires Holds(stack[0], shapes[seen[|order|]])
      ensures Distinct(more) && forall ks :: ks in more <==> ks in ns && ks != [] && Parent(ks) == seen[|order|]
      ensures Queued(ns, stack', seen + more, |order| + 1)
      ensures diffs' == diffs + Emit([seen[|order|]], ViewIn(shapes))
    {
      var node := stack[0];
      ghost var at := seen[|order|];
      diffs' := diffs;
      if node.operation != IGNORE_ITEM {
        diffs' := diffs' + [Change(node.operation, node.path)];
      }
      PathAt(ns, shapes, at);
      assert Emit([], ViewIn(shapes)) == [] && [at][..0] == [];
      stack', more := Enqueue(stack, node, at, ns, shapes);
      QueuedOn(ns, stack, seen, |order|, stack', more);
      stack' := stack'[1..];
    }

    /** Appends the children of a node, in whatever order the map yields them. */
    static method Enqueue(stack: seq<DiffNode>, node: DiffNode,
                          ghost at: Key, ghost ns: map<Key, DiffNode>, ghost shapes: map<Key, Shape>)
      returns (queue: seq<DiffNode>, ghost more: seq<Key>)
      requires TreeOk(ns, shapes) && at in ns && shapes[at].children == node.children
      ensures Distinct(more) && forall ks :: ks in more <==> ks in ns && ks != [] && Parent(ks) == at
      ensures |queue| == |stack| + |more| && queue[..|stack|] == stack
      ensures forall i :: 0 <= i < |more| ==> queue[|stack| + i] == ns[more[i]]
    {
      queue := stack;
      var children := node.children;
      var rest := children.Keys;
      ghost var taken: seq<string> := [];
      while rest != {}
        invariant rest <= children.Keys
        invariant Distinct(taken)
        invariant forall c :: c in taken <==> c in children && c !in rest
        invariant |queue| == |stack| + |taken| && queue[..|stack|] == stack
        invariant forall i :: 0 <= i < |taken| ==> taken[i] in children && queue[|stack| + i] == children[taken[i]]
      {
        var c :| c in rest;
        assert c !in taken;
        queue := queue + [children[c]];
        taken := taken + [c];
        rest := rest - {c};
      }
      more := ChildKeys(at, taken);
      ChildKeysOf(at, taken);
      assert PlaceOk(ns, shapes, at);
      forall ks ensures ks in more <==> ks in ns && ks != [] && Parent(ks) == at {
        if ks in ns && ks != [] && Parent(ks) == at { assert PlaceOk(ns, shapes, ks); }
      }
    }
  }

  ghost predicate Holds(node: DiffNode, shape: Shape)
    reads node
  {
    Shape(node.children, node.path, node.operation) == shape
  }

  /** The queue holds the nodes of the positions seen but not yet visited. */
  ghost predicate Queued(ns: map<Key, DiffNode>, stack: seq<DiffNode>, seen: seq<Key>, n: nat) {
    && |seen| == n + |stack|
    && (forall i :: 0 <= i < |seen| ==> seen[i] in ns)
    && forall i :: n <= i < |seen| ==> stack[i - n] == ns[seen[i]]
  }

  lemma QueuedOn(ns: map<Key, DiffNode>, stack: seq<DiffNode>, seen: seq<Key>, n: nat,
                 queue: seq<DiffNode>, more: seq<Key>)
    requires Queued(ns, stack, seen, n) && |stack| > 0
    requires |queue| == |stack| + |more| && queue[..|stack|] == stack
    requires forall ks :: ks in more ==> ks in ns
    requires forall i :: 0 <= i < |more| ==> queue[|stack| + i] == ns[more[i]]
    ensures Queued(ns, queue[1..], seen + more, n + 1)
  {
    forall i | n + 1 <= i < |seen + more| ensures queue[1..][i - n - 1] == ns[(seen + more)[i]] {
      if i < |seen| {
        assert queue[i - n] == queue[..|stack|][i - n];
      } else {
        assert queue[|stack| + (i - |seen|)] == ns[more[i - |seen|]];
      }
    }
  }

  lemma WalkDone(ns: map<Key, DiffNode>, shapes: map<Key, Shape>, order: seq<Key>, seen: seq<Key>)
    requires TreeOk(ns, shapes) && Walk(ns.Keys, order, seen) && |order| == |seen|
    ensures BreadthFirst(order, ViewIn(shapes))
  {
    assert order == seen;
    forall ks | ks in ns ensures ks in order { Reached(ns, shapes, order, ks); }
  }

  lemma {:induction false} Reached(ns: map<Key, DiffNode>, shapes: map<Key, Shape>, order: seq<Key>, ks: Key)
    requires TreeOk(ns, shapes) && Walk(ns.Keys, order, order) && ks in ns
    ensures ks in order
    decreases |ks|
  {
    if ks != [] {
      assert PlaceOk(ns, shapes, ks);
      Reached(ns, shapes, order, Parent(ks));
    }
  }

  /** The path a node holds is the path of its position. */
  lemma {:induction false} PathAt(ns: map<Key, DiffNode>, shapes: map<Key, Shape>, ks: Key)
    requires TreeOk(ns, shapes) && ks in ns
    ensures AllSlashFree(ks) && shapes[ks].path == NodePath(ks)
    decreases |ks|
  {
    if ks != [] {
      assert PlaceOk(ns, shapes, ks) && ks == Parent(ks) + [Last(ks)];
      PathAt(ns, shapes, Parent(ks));
      NodePathStep(Parent(ks), Last(ks));
    }
  }

  /** The positions of the children with the given keys. */
  ghost function ChildKeys(at: Key, cs: seq<string>): (r: seq<Key>)
    ensures |r| == |cs| && forall i :: 0 <= i < |cs| ==> r[i] == at + [cs[i]]
  {
    seq(|cs|, i requires 0 <= i < |cs| => at + [cs[i]])
  }

  lemma ChildKeysOf(at: Key, cs: seq<string>)
    requires Distinct(cs)
    ensures Distinct(ChildKeys(at, cs))
    ensures forall ks :: ks in ChildKeys(at, cs) <==> ks != [] && Parent(ks) == at && Last(ks) in cs
  {
    var r := ChildKeys(at, cs);
    forall i, j | 0 <= i < j < |r| ensures r[i] != r[j] { assert Last(r[i]) != Last(r[j]); }
    forall ks ensures ks in r <==> ks != [] && Parent(ks) == at && Last(ks) in cs {
      if ks != [] && Parent(ks) == at && Last(ks) in cs {
        var i :| 0 <= i < |cs| && cs[i] == Last(ks);
        assert r[i] == ks;
      }
    }
  }

  /** The state of a walk over the positions `keys`: `order` is visited, the rest of `seen` is queued. */
  ghost predicate Walk(keys: set<Key>, order: seq<Key>, seen: seq<Key>) {
    && order <= seen && Distinct(seen) && [] in seen
    && (forall ks :: ks in seen ==> ks in keys)
    && (forall ks {:trigger Parent(ks)} :: ks in seen && ks != [] ==> Parent(ks) in order)
    && (forall ks {:trigger Parent(ks)} :: ks in keys && ks != [] && Parent(ks) in order ==> ks in seen)
    && Layered(seen, |order|)
  }

  lemma WalkOn(keys: set<Key>, order: seq<Key>, seen: seq<Key>, more: seq<Key>)
    requires Walk(keys, order, seen) && |order| < |seen|
    requires Distinct(more)
    requires forall ks :: ks in more <==> ks in keys && ks != [] && Parent(ks) == seen[|order|]
    ensures Walk(keys, order + [seen[|order|]], seen + more)
    ensures seen[|order|] !in order
  {
    var at := seen[|order|];
    assert at !in order by { assert forall i :: 0 <= i < |order| ==> order[i] == seen[i]; }
    forall ks | ks in more ensures ks !in seen { assert Parent(ks) == at; }
    assert order + [at] <= seen + more;
    DistinctAppend(seen, more);
    WalkDepth(seen, |order|, more);
    WalkParents(keys, order, seen, at, more);
  }

  /** The walk stays closed: parents are visited before, children of the visited are seen. */
  lemma WalkParents(keys: set<Key>, order: seq<Key>, seen: seq<Key>, at: Key, more: seq<Key>)
    requires forall ks :: ks in seen && ks != [] ==> Parent(ks) in order
    requires forall ks :: ks in keys && ks != [] && Parent(ks) in order ==> ks in seen
    requires forall ks :: ks in more <==> ks in keys && ks != [] && Parent(ks) == at
    ensures forall ks :: ks in seen + more && ks != [] ==> Parent(ks) in order + [at]
    ensures forall ks :: ks in keys && ks != [] && Parent(ks) in order + [at] ==> ks in seen + more
  {
    forall ks | ks in seen + more && ks != [] ensures Parent(ks) in order + [at] {
      assert ks in seen || ks in more;
    }
    forall ks | ks in keys && ks != [] && Parent(ks) in order + [at] ensures ks in seen + more {
      assert Parent(ks) in order || ks in more;
    }
  }

  /** Depths never decrease, and from position `n` on they differ by at most one. */
  ghost predicate Layered(seen: seq<Key>, n: nat) {
    && (forall i, j :: 0 <= i < j < |seen| ==> |seen[i]| <= |seen[j]|)
    && (n < |seen| ==> forall i :: n <= i < |seen| ==> |seen[i]| <= |seen[n]| + 1)
  }

  lemma WalkDepth(seen: seq<Key>, n: nat, more: seq<Key>)
    requires Layered(seen, n) && n < |seen|
    requires forall ks :: ks in more ==> |ks| == |seen[n]| + 1
    ensures Layered(seen + more, n + 1)
  {
    var all := seen + more;
    forall i, j | 0 <= i < j < |all| ensures |all[i]| <= |all[j]| {
      if j >= |seen| {
        assert all[j] in more;
        if i >= |seen| { assert all[i] in more; }
      }
    }
  }

  ghost function Members(s: seq<Key>): set<Key> { set ks | ks in s }

  lemma MembersStep(s: seq<Key>, ks: Key)
    ensures Members(s + [ks]) == Members(s) + {ks}
    ensures ks !in s ==> ks !in Members(s)
  {
  }

  lemma EmitStep(order: seq<Key>, at: Key, v: View)
    requires at in v && forall i :: 0 <= i < |order| ==> order[i] in v
    ensures Emit(order + [at], v) == Emit(order, v) + Emit([at], v)
  {
    assert (order + [at])[..|order|] == order;
    assert [at][..0] == [];
  }

  /** An insertion, position by position: `rest` is still to be walked from `at`. */
  function DescendView(v: View, at: Key, rest: seq<string>, kind: uint8): View
    decreases |rest|
  {
    if rest == [] then v
    else
      var next := at + [rest[0]];
      DescendView(v[next := if next in v then IGNORE_ITEM else kind], next, rest[1..], kind)
  }

  lemma {:induction false} DescendFrom(v: View, at: Key, rest: seq<string>, kind: uint8)
    ensures DescendView(InsertView(v, at, kind), at, rest, kind) == InsertView(v, at + rest, kind)
    decreases |rest|
  {
    if rest == [] {
      assert at + rest == at;
    } else {
      InsertOneMore(v, at, rest[0], kind);
      DescendFrom(v, at + [rest[0]], rest[1..], kind);
      assert at + rest == at + [rest[0]] + rest[1..];
    }
  }

  lemma DescendIsInsert(v: View, items: seq<string>, kind: uint8)
    ensures DescendView(v, [], items, kind) == InsertView(v, items, kind)
  {
    assert Prefixes([]) == {};
    assert InsertView(v, [], kind) == v;
    DescendFrom(v, [], items, kind);
    assert [] + items == items;
  }

  lemma InsertOneMore(v: View, at: Key, c: string, kind: uint8)
    ensures at + [c] in InsertView(v, at, kind) <==> at + [c] in v
    ensures InsertView(v, at + [c], kind)
      == InsertView(v, at, kind)[at + [c] := if at + [c] in v then IGNORE_ITEM else kind]
  {
    var next := at + [c];
    PrefixesThrough(at, next);
    assert Prefixes(next) == Prefixes(at) + {next} by {
      forall ks ensures ks in Prefixes(next) <==> ks in Prefixes(at) + {next} {
        PrefixesThrough(next, ks);
        PrefixesThrough(at, ks);
        if Through(ks, next) && ks != next { assert ks == at[..|ks|]; }
      }
    }
  }

  /** The path stored at a position is the parent's path joined with the key. */
  lemma NodePathStep(ks: Key, c: string)
    requires SlashFree(c) && AllSlashFree(ks)
    ensures NodePath(ks + [c]) == Join([NodePath(ks), c])
  {
    PushAllStacked(true, [], ks);
    PushAllAppend(true, [], ks, [c]);
    JoinOne(PushAll(true, [], ks), c);
    assert [c][1..] == [];
  }
}
