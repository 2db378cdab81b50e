/** What the trie of `transform/docker/devicemapper.go` computes, on values: the
    kind stored at each key sequence after a list of insertions, and which
    changes survive the filter. */
module DiffSpec {
  import opened Paths
  import opened Lists

  newtype uint8 = x: int | 0 <= x < 256

  const CHANGE_ITEM: uint8 := 0
  const ADD_ITEM: uint8 := 1
  const DEL_ITEM: uint8 := 2
  const IGNORE_ITEM: uint8 := 3

  datatype Change = Change(kind: uint8, path: string)

  /** A position in the trie: the child keys that lead to it from the root. */
  type Key = seq<string>

  /** The kind stored at every position of a trie. */
  type View = map<Key, uint8>

  const EMPTY_VIEW: View := map[[] := IGNORE_ITEM]

  /** The path stored at a position, the components joined one at a time. */
  function NodePath(ks: Key): string { Render(PushAll(true, [], ks)) }

  /** `ks` lies on the way to `items`, the end included and the root left out. */
  predicate Through(ks: Key, items: Key) { ks != [] && ks <= items }

  /** The way to `items`, position by position. */
  function Prefixes(items: Key): set<Key> { set i | 1 <= i <= |items| :: items[..i] }

  lemma PrefixesThrough(items: Key, ks: Key)
    ensures ks in Prefixes(items) <==> Through(ks, items)
  {
    if Through(ks, items) { assert ks == items[..|ks|]; }
  }

  /** One insertion: new positions take the kind, positions met again are ignored. */
  function InsertView(v: View, items: Key, kind: uint8): View {
    map ks | ks in v.Keys + Prefixes(items) ::
      if ks in Prefixes(items) then (if ks in v then IGNORE_ITEM else kind) else v[ks]
  }

  function Build(cs: seq<Change>): View {
    if cs == [] then EMPTY_VIEW
    else InsertView(Build(cs[..|cs| - 1]), Items(cs[|cs| - 1].path), cs[|cs| - 1].kind)
  }

  /** Change number `i` passes through `ks`. */
  predicate Passes(cs: seq<Change>, i: int, ks: Key) {
    0 <= i < |cs| && Through(ks, Items(cs[i].path))
  }

  /** Change number `i`, and no other, passes through `ks`. */
  ghost predicate Sole(cs: seq<Change>, i: int, ks: Key) {
    Passes(cs, i, ks) && forall j :: Passes(cs, j, ks) ==> j == i
  }

  lemma PassesExtend(cs: seq<Change>, c: Change, i: int, ks: Key)
    ensures Passes(cs + [c], i, ks) <==> Passes(cs, i, ks) || (i == |cs| && Through(ks, Items(c.path)))
  {
  }

  /** The exact meaning of the trie, for any list: a position exists iff some change
      passes through it, and it keeps the kind of that change iff it is the only one. */
  lemma {:induction false} BuildExact(cs: seq<Change>, ks: Key)
    ensures ks in Build(cs) <==> ks == [] || exists i :: Passes(cs, i, ks)
    ensures ks in Build(cs) ==>
      if exists i :: Sole(cs, i, ks) then forall i :: Sole(cs, i, ks) ==> Build(cs)[ks] == cs[i].kind
      else Build(cs)[ks] == IGNORE_ITEM
  {
    if cs != [] {
      var n := |cs| - 1;
      var before, c := cs[..n], cs[n];
      assert cs == before + [c];
      BuildExact(before, ks);
      PrefixesThrough(Items(c.path), ks);
      forall i ensures Passes(cs, i, ks) <==> Passes(before, i, ks) || (i == n && Through(ks, Items(c.path))) {
        PassesExtend(before, c, i, ks);
      }
      if Through(ks, Items(c.path)) {
        assert Passes(cs, n, ks);
        if ks in Build(before) {
          var i :| Passes(before, i, ks);
          assert Passes(cs, i, ks) && i != n;
        } else {
          assert forall i :: !Passes(before, i, ks);
          assert Sole(cs, n, ks);
        }
      } else {
        forall i ensures Sole(cs, i, ks) <==> Sole(before, i, ks) {}
      }
    } else {
      assert forall i :: !Passes(cs, i, ks);
    }
  }

  // ------------------------------------------------------------ what is emitted

  /** The changes emitted when the positions are visited in the given order. */
  function Emit(order: seq<Key>, v: View): (diffs: seq<Change>)
    requires forall i :: 0 <= i < |order| ==> order[i] in v
  {
    if order == [] then []
    else
      var last := order[|order| - 1];
      Emit(order[..|order| - 1], v)
        + (if v[last] == IGNORE_ITEM then [] else [Change(v[last], NodePath(last))])
  }

  /** `order` visits every position of `v` exactly once, the shallow ones first. */
  ghost predicate BreadthFirst(order: seq<Key>, v: View) {
    && Distinct(order)
    && (forall ks :: ks in order <==> ks in v)
    && (forall i, j :: 0 <= i < j < |order| ==> |order[i]| <= |order[j]|)
  }

  predicate AllCanonical(cs: seq<Change>) { forall i :: 0 <= i < |cs| ==> Canonical(cs[i].path) }

  /** `c` is emitted for `cs`: exactly one change has its path as ancestor or self,
      and that change has its kind, which is not the code of an ignored node. */
  ghost predicate Survives(cs: seq<Change>, c: Change) {
    && Canonical(c.path)
    && c.kind != 3
    && exists i :: Sole(cs, i, Items(c.path)) && cs[i].kind == c.kind
  }

  lemma NodePathCanonical(items: Key, ks: Key)
    requires Through(ks, items) && AllProper(items)
    ensures NodePath(ks) == Render(ks) && Items(NodePath(ks)) == ks && Canonical(NodePath(ks))
  {
    assert forall i :: 0 <= i < |ks| ==> ks[i] == items[i];
    PushAllFixed(true, [], ks);
    assert [] + ks == ks;
    ItemsRender(ks);
  }

  /** `c` is what visiting position `ks` emits. */
  predicate Emits(v: View, ks: Key, c: Change) {
    ks in v && v[ks] != IGNORE_ITEM && c == Change(v[ks], NodePath(ks))
  }

  lemma {:induction false} EmitMembers(order: seq<Key>, v: View, c: Change)
    requires forall i :: 0 <= i < |order| ==> order[i] in v
    ensures c in Emit(order, v) <==> exists ks :: ks in order && Emits(v, ks, c)
  {
    if order != [] {
      var n := |order| - 1;
      EmitMembers(order[..n], v, c);
      assert order == order[..n] + [order[n]];
      if Emits(v, order[n], c) { assert order[n] in order; }
    }
  }

  lemma {:induction false} EmitDistinct(order: seq<Key>, v: View)
    requires forall i :: 0 <= i < |order| ==> order[i] in v
    requires Distinct(order)
    requires forall ks, ks' | ks in v && ks' in v && v[ks] != IGNORE_ITEM && v[ks'] != IGNORE_ITEM ::
      NodePath(ks) == NodePath(ks') ==> ks == ks'
    ensures Distinct(Emit(order, v))
  {
    if order != [] {
      var n := |order| - 1;
      EmitDistinct(order[..n], v);
      EmitMembers(order[..n], v, Change(v[order[n]], NodePath(order[n])));
    }
  }

  /** Visiting the trie of canonical changes emits exactly the survivors, each once. */
  lemma EmitExact(cs: seq<Change>, order: seq<Key>)
    requires AllCanonical(cs)
    requires BreadthFirst(order, Build(cs))
    ensures Distinct(Emit(order, Build(cs)))
    ensures forall c :: c in Emit(order, Build(cs)) <==> Survives(cs, c)
  {
    var v := Build(cs);
    forall ks | ks in v && v[ks] != IGNORE_ITEM
      ensures ks != [] && NodePath(ks) == Render(ks) && Items(NodePath(ks)) == ks && Canonical(NodePath(ks))
      ensures exists i :: Sole(cs, i, ks) && cs[i].kind == v[ks]
    {
      BuildExact(cs, ks);
      var i :| Sole(cs, i, ks);
      NodePathCanonical(Items(cs[i].path), ks);
    }
    EmitDistinct(order, v);
    forall c ensures c in Emit(order, v) <==> Survives(cs, c) {
      EmitMembers(order, v, c);
      if Survives(cs, c) {
        var ks := Items(c.path);
        BuildExact(cs, ks);
        RenderItems(c.path);
        assert ks in order && Emits(v, ks, c);
      }
    }
  }

  // ------------------------------------------------------------ order of the list

  /** The changes that pass through `ks`, with multiplicity. */
  function Passing(cs: seq<Change>, ks: Key): multiset<Change> {
    if cs == [] then multiset{}
    else
      var last := cs[|cs| - 1];
      Passing(cs[..|cs| - 1], ks) + (if Through(ks, Items(last.path)) then multiset{last} else multiset{})
  }

  lemma {:induction false} PassingCount(cs: seq<Change>, ks: Key, c: Change)
    ensures Passing(cs, ks)[c] == if Through(ks, Items(c.path)) then multiset(cs)[c] else 0
  {
    if cs != [] {
      var n := |cs| - 1;
      assert cs == cs[..n] + [cs[n]];
      PassingCount(cs[..n], ks, c);
    }
  }

  lemma {:induction false} PassingSole(cs: seq<Change>, ks: Key, kind: uint8)
    ensures |Passing(cs, ks)| == 0 <==> forall i :: !Passes(cs, i, ks)
    ensures (exists i :: Sole(cs, i, ks) && cs[i].kind == kind)
      <==> exists c :: Passing(cs, ks) == multiset{c} && c.kind == kind
  {
    if cs != [] {
      var n := |cs| - 1;
      var before, c := cs[..n], cs[n];
      assert cs == before + [c];
      PassingSole(before, ks, kind);
      forall i ensures Passes(cs, i, ks) <==> Passes(before, i, ks) || (i == n && Through(ks, Items(c.path))) {
        PassesExtend(before, c, i, ks);
      }
      if Through(ks, Items(c.path)) {
        assert Passes(cs, n, ks);
        if d :| Passing(cs, ks) == multiset{d} && d.kind == kind {
          assert |Passing(before, ks)| + 1 == |multiset{d}| == 1;
          assert Passing(cs, ks)[c] >= 1;
          assert Sole(cs, n, ks);
        }
        if i :| Sole(cs, i, ks) && cs[i].kind == kind {
          assert i == n;
          forall j ensures !Passes(before, j, ks) { assert Passes(cs, j, ks) ==> j == i; }
          assert Passing(cs, ks) == multiset{c};
        }
      } else {
        forall i ensures Sole(cs, i, ks) <==> Sole(before, i, ks) {}
      }
    }
  }

  /** What survives depends on the multiset of changes, not on the order of the list. */
  lemma SurvivesByMultiset(cs: seq<Change>, ds: seq<Change>, c: Change)
    requires multiset(cs) == multiset(ds)
    ensures Survives(cs, c) <==> Survives(ds, c)
  {
    var ks := Items(c.path);
    assert Passing(cs, ks) == Passing(ds, ks) by {
      forall d ensures Passing(cs, ks)[d] == Passing(ds, ks)[d] {
        PassingCount(cs, ks, d);
        PassingCount(ds, ks, d);
      }
    }
    PassingSole(cs, ks, c.kind);
    PassingSole(ds, ks, c.kind);
  }

  // ------------------------------------------------------------ "only leaf nodes"

  /** `c` is a change of the list that no other change lies strictly below. */
  ghost predicate IsLeaf(cs: seq<Change>, c: Change) {
    && c in cs
    && forall d :: d in cs && Items(c.path) <= Items(d.path) ==> Items(d.path) == Items(c.path)
  }

  /** The rule in the source's comment: exactly the leaves are dealt with, with their kinds. */
  ghost predicate LeafRule(cs: seq<Change>) {
    forall c :: Survives(cs, c) <==> IsLeaf(cs, c)
  }

  /** Some other change also passes through the first `n` components of change `i`. */
  ghost predicate Shared(cs: seq<Change>, i: int, n: int)
    requires 0 <= i < |cs| && 0 <= n <= |Items(cs[i].path)|
  {
    exists j :: j != i && Passes(cs, j, Items(cs[i].path)[..n])
  }

  /** No leaf is listed twice, and no change is alone below a directory that has no change of its own. */
  ghost predicate LeavesOnceAndShared(cs: seq<Change>) {
    && (forall i, j :: 0 <= i < j < |cs| && Items(cs[i].path) == Items(cs[j].path) ==> !IsLeaf(cs, cs[i]))
    && (forall i, n :: 0 <= i < |cs| && 0 < n < |Items(cs[i].path)| ==> Shared(cs, i, n))
  }

  predicate KnownKinds(cs: seq<Change>) { forall i :: 0 <= i < |cs| ==> cs[i].kind < 3 }

  /** The comment's rule is not what the code does in general: it holds exactly when ... */
  lemma LeafRuleIff(cs: seq<Change>)
    requires AllCanonical(cs) && KnownKinds(cs)
    ensures LeafRule(cs) <==> LeavesOnceAndShared(cs)
  {
    if LeafRule(cs) { LeafRuleOnlyIf(cs); }
    if LeavesOnceAndShared(cs) { LeafRuleIf(cs); }
  }

  lemma LeafRuleOnlyIf(cs: seq<Change>)
    requires AllCanonical(cs) && KnownKinds(cs) && LeafRule(cs)
    ensures LeavesOnceAndShared(cs)
  {
    forall i, j | 0 <= i < j < |cs| && Items(cs[i].path) == Items(cs[j].path)
      ensures !IsLeaf(cs, cs[i])
    {
      var ks := Items(cs[i].path);
      assert Passes(cs, i, ks) && Passes(cs, j, ks);
      assert !Survives(cs, cs[i]);
    }
    forall i, n | 0 <= i < |cs| && 0 < n < |Items(cs[i].path)| ensures Shared(cs, i, n) {
      var ks := Items(cs[i].path)[..n];
      assert Passes(cs, i, ks);
      if Sole(cs, i, ks) {
        SoleEmits(cs, i, ks);
        assert !IsLeaf(cs, Change(cs[i].kind, Render(ks))) by { assert cs[i] in cs; }
        assert false;
      }
    }
  }

  lemma SoleEmits(cs: seq<Change>, i: int, ks: Key)
    requires AllCanonical(cs) && KnownKinds(cs) && Sole(cs, i, ks)
    ensures Items(Render(ks)) == ks && Survives(cs, Change(cs[i].kind, Render(ks)))
  {
    NodePathCanonical(Items(cs[i].path), ks);
  }

  lemma LeafRuleIf(cs: seq<Change>)
    requires AllCanonical(cs) && KnownKinds(cs) && LeavesOnceAndShared(cs)
    ensures LeafRule(cs)
  {
    forall c ensures Survives(cs, c) <==> IsLeaf(cs, c) {
      if Survives(cs, c) { SurvivorIsLeaf(cs, c); }
      if IsLeaf(cs, c) { LeafSurvives(cs, c); }
    }
  }

  lemma SurvivorIsLeaf(cs: seq<Change>, c: Change)
    requires AllCanonical(cs) && LeavesOnceAndShared(cs) && Survives(cs, c)
    ensures IsLeaf(cs, c)
  {
    var ks := Items(c.path);
    var i :| Sole(cs, i, ks) && cs[i].kind == c.kind;
    var items := Items(cs[i].path);
    assert ks == items[..|ks|];
    assert !Shared(cs, i, |ks|);
    assert ks == items;
    RenderItems(c.path);
    RenderItems(cs[i].path);
    assert c == cs[i];
    forall d | d in cs && ks <= Items(d.path) ensures Items(d.path) == ks {
      var j :| 0 <= j < |cs| && cs[j] == d;
      assert Passes(cs, j, ks);
    }
  }

  lemma LeafSurvives(cs: seq<Change>, c: Change)
    requires AllCanonical(cs) && KnownKinds(cs) && LeavesOnceAndShared(cs) && IsLeaf(cs, c)
    ensures Survives(cs, c)
  {
    var i :| 0 <= i < |cs| && cs[i] == c;
    var ks := Items(c.path);
    assert Passes(cs, i, ks);
    forall j | Passes(cs, j, ks) ensures j == i {
      assert cs[j] in cs;
      assert Items(cs[j].path) == ks;
      if j < i {
        assert IsLeaf(cs, cs[j]);
      }
    }
    assert Sole(cs, i, ks);
  }

  /** Every listed path is listed once. */
  ghost predicate OncePerPath(cs: seq<Change>) {
    forall i, j :: 0 <= i < j < |cs| ==> Items(cs[i].path) != Items(cs[j].path)
  }

  /** Every directory above a listed path is listed. */
  ghost predicate ParentClosed(cs: seq<Change>) {
    forall i, n :: 0 <= i < |cs| && 0 < n < |Items(cs[i].path)| ==>
      exists j :: 0 <= j < |cs| && Items(cs[j].path) == Items(cs[i].path)[..n]
  }

  /** The lists the comment has in mind follow its rule, and no survivor lies below another. */
  lemma LeafRuleForParentClosed(cs: seq<Change>)
    requires AllCanonical(cs) && KnownKinds(cs) && OncePerPath(cs) && ParentClosed(cs)
    ensures LeafRule(cs)
    ensures forall c, d :: Survives(cs, c) && Survives(cs, d) && Items(c.path) <= Items(d.path) ==> c == d
  {
    forall i, n | 0 <= i < |cs| && 0 < n < |Items(cs[i].path)|
      ensures Shared(cs, i, n)
    {
      var j :| 0 <= j < |cs| && Items(cs[j].path) == Items(cs[i].path)[..n];
      assert Passes(cs, j, Items(cs[i].path)[..n]);
    }
    LeafRuleIf(cs);
    forall c, d | Survives(cs, c) && Survives(cs, d) && Items(c.path) <= Items(d.path) ensures c == d {
      assert IsLeaf(cs, c) && IsLeaf(cs, d);
      var i :| 0 <= i < |cs| && cs[i] == c;
      var j :| 0 <= j < |cs| && cs[j] == d;
      assert Items(cs[i].path) == Items(cs[j].path);
    }
  }

  /** A lone change below an unlisted directory: the directory is emitted as well, with
      the change's kind, although it is no leaf. A change listed twice is not emitted at all. */
  lemma LeafRuleFails(a: string, b: string, kind: uint8)
    requires Proper(a) && Proper(b) && kind != 3
    ensures Survives([Change(kind, Render([a, b]))], Change(kind, Render([a])))
    ensures !LeafRule([Change(kind, Render([a, b]))])
    ensures !LeafRule([Change(kind, Render([a])), Change(kind, Render([a]))])
  {
    var deep, top := Change(kind, Render([a, b])), Change(kind, Render([a]));
    ItemsRender([a, b]);
    ItemsRender([a]);
    assert Passes([deep], 0, [a]);
    assert Sole([deep], 0, [a]);
    assert Survives([deep], top);
    assert Items(deep.path) != Items(top.path);
    assert !IsLeaf([deep], top);
    var twice := [top, top];
    assert IsLeaf(twice, top);
    assert Passes(twice, 0, [a]) && Passes(twice, 1, [a]);
    assert !Survives(twice, top);
  }
}
