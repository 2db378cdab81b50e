/** The device mapper driver of `transform/docker/devicemapper.go`: filter the change list
    through the trie, then replay what survives on the new root filesystem. */
module DeviceMapper {
  import opened Paths
  import opened Lists
  import opened DiffSpec
  import opened DiffTries
  import opened RootFs
  import opened ReplayMeaning
  import opened ReplayConverse

  /** A bind mount of the container; the driver only looks at the destination it is stored under. */
  datatype Mount = Mount(destination: string, source: string)

  /** The answer of the docker client to a diff request. */
  datatype DiffReply = Diff(changes: seq<Change>) | DiffError

  /** The changes whose path is no mount point. */
  function DropMounts(cs: seq<Change>, mounts: map<string, Mount>): seq<Change> {
    if cs == [] then []
    else
      var n := |cs| - 1;
      var rest := DropMounts(cs[..n], mounts);
      if cs[n].path in mounts then rest else rest + [cs[n]]
  }

  lemma {:induction false} DropMembers(cs: seq<Change>, mounts: map<string, Mount>, c: Change)
    ensures c in DropMounts(cs, mounts) <==> c in cs && c.path !in mounts
  {
    if cs != [] {
      var n := |cs| - 1;
      DropMembers(cs[..n], mounts, c);
      assert cs == cs[..n] + [cs[n]];
    }
  }

  /** What `ChangesFilter` may return for `cs`. */
  ghost predicate IsFiltered(a: seq<Change>, cs: seq<Change>, mounts: map<string, Mount>) {
    Distinct(a) && forall c :: c in a <==> Survives(DropMounts(cs, mounts), c)
  }

  method ChangesFilter(changes: seq<Change>, mounts: map<string, Mount>)
    returns (diffs: seq<Change>, ghost order: seq<Key>)
    ensures BreadthFirst(order, Build(DropMounts(changes, mounts)))
    ensures diffs == Emit(order, Build(DropMounts(changes, mounts)))
    ensures AllCanonical(changes) ==> IsFiltered(diffs, changes, mounts)
  {
    var t := InsertAll(changes, mounts);
    diffs, order := t.Filter();
    FilteredExactly(changes, mounts, order);
  }

  /** The loop of `changesFilter`. */
  method InsertAll(changes: seq<Change>, mounts: map<string, Mount>) returns (t: DiffTrie)
    ensures t.Valid() && fresh(t) && fresh(t.nodes.Values)
    ensures t.ViewOf() == Build(DropMounts(changes, mounts))
  {
    t := new DiffTrie();
    for i := 0 to |changes|
      invariant t.Valid() && fresh(t) && forall node :: node in t.nodes.Values ==> fresh(node)
      invariant t.ViewOf() == Build(DropMounts(changes[..i], mounts))
    {
      DropStep(changes, i, mounts);
      InsertUnmounted(t, changes[i], mounts);
    }
    assert changes[..|changes|] == changes;
  }

  /** One turn of the loop: mount points are passed over. */
  method InsertUnmounted(t: DiffTrie, change: Change, mounts: map<string, Mount>)
    requires t.Valid()
    modifies t`nodes, t.nodes.Values
    ensures t.Valid() && fresh(t.nodes.Values - old(t.nodes.Values))
    ensures t.ViewOf() == if change.path in mounts then old(t.ViewOf())
      else InsertView(old(t.ViewOf()), Items(change.path), change.kind)
  {
    if change.path in mounts {
      return;
    }
    t.Insert(change.path, change.kind);
  }

  lemma DropStep(cs: seq<Change>, i: nat, mounts: map<string, Mount>)
    requires i < |cs|
    ensures Build(DropMounts(cs[..i + 1], mounts)) ==
      if cs[i].path in mounts then Build(DropMounts(cs[..i], mounts))
      else InsertView(Build(DropMounts(cs[..i], mounts)), Items(cs[i].path), cs[i].kind)
  {
    var before := DropMounts(cs[..i], mounts);
    assert cs[..i + 1][..i] == cs[..i];
    assert (before + [cs[i]])[..|before|] == before;
  }

  lemma FilteredExactly(cs: seq<Change>, mounts: map<string, Mount>, order: seq<Key>)
    requires BreadthFirst(order, Build(DropMounts(cs, mounts)))
    ensures AllCanonical(cs) ==> IsFiltered(Emit(order, Build(DropMounts(cs, mounts))), cs, mounts)
  {
    if AllCanonical(cs) {
      DropKeepsCanonical(cs, mounts);
      EmitExact(DropMounts(cs, mounts), order);
    }
  }

  lemma DropKeepsCanonical(cs: seq<Change>, mounts: map<string, Mount>)
    requires AllCanonical(cs)
    ensures AllCanonical(DropMounts(cs, mounts))
  {
    var r := DropMounts(cs, mounts);
    forall i | 0 <= i < |r| ensures Canonical(r[i].path) {
      DropMembers(cs, mounts, r[i]);
    }
  }

  /** Dropping the mounts removes every occurrence of theirs and nothing else. */
  lemma {:induction false} DropCount(cs: seq<Change>, mounts: map<string, Mount>, c: Change)
    ensures multiset(DropMounts(cs, mounts))[c] == if c.path in mounts then 0 else multiset(cs)[c]
  {
    if cs != [] {
      var n := |cs| - 1;
      DropCount(cs[..n], mounts, c);
      assert cs == cs[..n] + [cs[n]];
    }
  }

  /** The filtered list depends on which changes there are, not on their order: two runs
      return the same changes, whatever order the list and the maps were read in. */
  lemma FilterOrderIrrelevant(cs: seq<Change>, ds: seq<Change>, mounts: map<string, Mount>,
                              a: seq<Change>, b: seq<Change>)
    requires multiset(cs) == multiset(ds) && IsFiltered(a, cs, mounts) && IsFiltered(b, ds, mounts)
    ensures multiset(a) == multiset(b)
  {
    var cs', ds' := DropMounts(cs, mounts), DropMounts(ds, mounts);
    assert multiset(cs') == multiset(ds') by {
      forall c ensures multiset(cs')[c] == multiset(ds')[c] {
        DropCount(cs, mounts, c);
        DropCount(ds, mounts, c);
      }
    }
    forall c ensures c in a <==> c in b { SurvivesByMultiset(cs', ds', c); }
    SameMultiset(a, b);
  }

  // ------------------------------------------------------------ from strings to edits

  function EditOf(c: Change): Edit { Edit(c.kind, Items(c.path)) }

  function EditsOf(cs: seq<Change>): (es: seq<Edit>)
    ensures |es| == |cs| && forall i :: 0 <= i < |cs| ==> es[i] == EditOf(cs[i])
  {
    seq(|cs|, i requires 0 <= i < |cs| => EditOf(cs[i]))
  }

  function MountKeys(mounts: map<string, Mount>): set<Key> {
    set m | m in mounts && Canonical(m) :: Items(m)
  }

  /** The change list says, once per path, exactly how `src` differs from `base`. */
  ghost predicate Describes(cs: seq<Change>, base: Fs, src: Fs) {
    && AllCanonical(cs) && OncePerPath(cs)
    && forall e :: Listed(base, src, e) <==> e in EditsOf(cs)
  }

  lemma SamePathSameItems(a: string, b: string)
    requires Canonical(a) && Canonical(b)
    ensures a == b <==> Items(a) == Items(b)
  {
    RenderItems(a);
    RenderItems(b);
  }

  lemma MountedIffKey(c: Change, mounts: map<string, Mount>)
    requires Canonical(c.path)
    ensures c.path in mounts <==> Items(c.path) in MountKeys(mounts)
  {
    if Items(c.path) in MountKeys(mounts) {
      var m :| m in mounts && Canonical(m) && Items(m) == Items(c.path);
      SamePathSameItems(m, c.path);
    }
  }

  /** After dropping the mounts, the list holds exactly the unmounted changes. */
  lemma DroppedAreUnmounted(cs: seq<Change>, mounts: map<string, Mount>, base: Fs, src: Fs, e: Edit)
    requires Describes(cs, base, src)
    ensures e in EditsOf(DropMounts(cs, mounts)) <==> Unmounted(base, src, MountKeys(mounts), e)
  {
    var r := DropMounts(cs, mounts);
    if e in EditsOf(r) {
      var i := EditAt(r, e);
      DropMembers(cs, mounts, r[i]);
      var j :| 0 <= j < |cs| && cs[j] == r[i];
      EditListed(cs, j);
      MountedIffKey(r[i], mounts);
    }
    if Unmounted(base, src, MountKeys(mounts), e) {
      var j := EditAt(cs, e);
      MountedIffKey(cs[j], mounts);
      DropMembers(cs, mounts, cs[j]);
      var i :| 0 <= i < |r| && r[i] == cs[j];
      EditListed(r, i);
    }
  }

  lemma {:induction false} DropKeepsOncePerPath(cs: seq<Change>, mounts: map<string, Mount>)
    requires OncePerPath(cs)
    ensures OncePerPath(DropMounts(cs, mounts))
  {
    if cs != [] {
      var n := |cs| - 1;
      DropKeepsOncePerPath(cs[..n], mounts);
      var rest := DropMounts(cs[..n], mounts);
      forall i | 0 <= i < |rest| ensures Items(rest[i].path) != Items(cs[n].path) {
        DropMembers(cs[..n], mounts, rest[i]);
        var j :| 0 <= j < n && cs[..n][j] == rest[i];
      }
    }
  }

  /** `r` lists exactly the unmounted changes. */
  ghost predicate ListsUnmounted(r: seq<Change>, base: Fs, src: Fs, keys: set<Key>) {
    AllCanonical(r) && forall e :: e in EditsOf(r) <==> Unmounted(base, src, keys, e)
  }

  /** Above an unmounted change everything is an unmounted change. */
  lemma UnmountedAbove(base: Fs, src: Fs, keys: set<Key>, e: Edit, p: Key) returns (d: Edit)
    requires WellFormed(base) && WellFormed(src) && NothingListedBelowMounts(base, src, keys)
    requires Unmounted(base, src, keys, e) && p != [] && p <= e.path && p != e.path
    ensures Unmounted(base, src, keys, d) && d.path == p
  {
    d := Edit(if p in base then CHANGE_ITEM else ADD_ITEM, p);
    ListedAbove(base, src, e, p);
  }

  lemma EditAt(r: seq<Change>, e: Edit) returns (j: int)
    requires e in EditsOf(r)
    ensures 0 <= j < |r| && EditOf(r[j]) == e && r[j] in r
  {
    j :| 0 <= j < |r| && EditsOf(r)[j] == e;
  }

  lemma EditListed(r: seq<Change>, i: int)
    requires 0 <= i < |r|
    ensures EditOf(r[i]) in EditsOf(r)
  {
    assert EditsOf(r)[i] == EditOf(r[i]);
  }

  /** The list is still parent-closed after dropping the mounts. */
  lemma UnmountedParentClosed(r: seq<Change>, base: Fs, src: Fs, keys: set<Key>)
    requires ListsUnmounted(r, base, src, keys)
    requires WellFormed(base) && WellFormed(src) && NothingListedBelowMounts(base, src, keys)
    ensures ParentClosed(r)
  {
    forall i, n | 0 <= i < |r| && 0 < n < |Items(r[i].path)|
      ensures exists j :: 0 <= j < |r| && Items(r[j].path) == Items(r[i].path)[..n]
    {
      EditListed(r, i);
      var d := UnmountedAbove(base, src, keys, EditOf(r[i]), Items(r[i].path)[..n]);
      var j := EditAt(r, d);
    }
  }

  lemma UnmountedKinds(r: seq<Change>, base: Fs, src: Fs, keys: set<Key>)
    requires ListsUnmounted(r, base, src, keys)
    ensures KnownKinds(r)
  {
    forall i | 0 <= i < |r| ensures r[i].kind < 3 {
      EditListed(r, i);
      assert Listed(base, src, EditOf(r[i]));
    }
  }

  lemma LeavesAreKept(r: seq<Change>, base: Fs, src: Fs, keys: set<Key>, c: Change)
    requires ListsUnmounted(r, base, src, keys) && Canonical(c.path)
    ensures IsLeaf(r, c) <==> IsKept(base, src, keys, EditOf(c))
  {
    EditInList(r, c);
    if IsLeaf(r, c) {
      forall e | Unmounted(base, src, keys, e) && Items(c.path) <= e.path ensures e.path == Items(c.path) {
        var j := EditAt(r, e);
      }
    }
    if IsKept(base, src, keys, EditOf(c)) {
      forall d | d in r && Items(c.path) <= Items(d.path) ensures Items(d.path) == Items(c.path) {
        var j :| 0 <= j < |r| && r[j] == d;
        EditListed(r, j);
      }
    }
  }

  lemma EditInList(r: seq<Change>, d: Change)
    requires AllCanonical(r) && Canonical(d.path)
    ensures d in r <==> EditOf(d) in EditsOf(r)
  {
    if EditOf(d) in EditsOf(r) {
      var j := EditAt(r, EditOf(d));
      SamePathSameItems(d.path, r[j].path);
    }
    if d in r {
      var j :| 0 <= j < |r| && r[j] == d;
      EditListed(r, j);
    }
  }

  /** What survives the trie is what the meaning of the replay calls kept. */
  lemma SurvivorsAreKept(cs: seq<Change>, mounts: map<string, Mount>, base: Fs, src: Fs)
    requires Describes(cs, base, src) && WellFormed(base) && WellFormed(src)
    requires NothingListedBelowMounts(base, src, MountKeys(mounts))
    ensures ListsUnmounted(DropMounts(cs, mounts), base, src, MountKeys(mounts))
    ensures forall c ::
      (Survives(DropMounts(cs, mounts), c) <==> Canonical(c.path) && IsKept(base, src, MountKeys(mounts), EditOf(c)))
  {
    var r, keys := DropMounts(cs, mounts), MountKeys(mounts);
    DropKeepsCanonical(cs, mounts);
    DropKeepsOncePerPath(cs, mounts);
    forall e ensures e in EditsOf(r) <==> Unmounted(base, src, keys, e) {
      DroppedAreUnmounted(cs, mounts, base, src, e);
    }
    UnmountedParentClosed(r, base, src, keys);
    UnmountedKinds(r, base, src, keys);
    LeafRuleForParentClosed(r);
    forall c ensures Survives(r, c) <==> Canonical(c.path) && IsKept(base, src, keys, EditOf(c)) {
      if Canonical(c.path) { LeavesAreKept(r, base, src, keys, c); }
    }
  }

  /** The filtered list, whatever its order, puts the replay in the setting its meaning speaks of. */
  lemma FilteredIsSetting(cs: seq<Change>, mounts: map<string, Mount>, base: Fs, src: Fs, diffs: seq<Change>)
    requires Describes(cs, base, src) && WellFormed(base) && WellFormed(src)
    requires NothingListedBelowMounts(base, src, MountKeys(mounts))
    requires IsFiltered(diffs, cs, mounts)
    ensures Setting(base, src, MountKeys(mounts), EditsOf(diffs))
  {
    SurvivorsAreKept(cs, mounts, base, src);
    var r, keys := DropMounts(cs, mounts), MountKeys(mounts);
    forall i | 0 <= i < |diffs| ensures Canonical(diffs[i].path) { assert diffs[i] in diffs; }
    DistinctEdits(diffs);
    forall e ensures e in EditsOf(diffs) <==> IsKept(base, src, keys, e) {
      if e in EditsOf(diffs) {
        var i := EditAt(diffs, e);
      }
      if IsKept(base, src, keys, e) { KeptIsListed(r, base, src, keys, diffs, e); }
    }
  }

  lemma KeptIsListed(r: seq<Change>, base: Fs, src: Fs, keys: set<Key>, diffs: seq<Change>, e: Edit)
    requires ListsUnmounted(r, base, src, keys) && IsKept(base, src, keys, e)
    requires forall c: Change :: Canonical(c.path) && IsKept(base, src, keys, EditOf(c)) ==> c in diffs
    ensures e in EditsOf(diffs)
  {
    assert Unmounted(base, src, keys, e);
    var j := EditAt(r, e);
    assert r[j] in diffs;
    var i :| 0 <= i < |diffs| && diffs[i] == r[j];
    EditListed(diffs, i);
  }

  lemma DistinctEdits(cs: seq<Change>)
    requires AllCanonical(cs) && Distinct(cs)
    ensures Distinct(EditsOf(cs))
  {
    forall i, j | 0 <= i < j < |cs| ensures EditsOf(cs)[i] != EditsOf(cs)[j] {
      SamePathSameItems(cs[i].path, cs[j].path);
    }
  }

  /** For a list as the source's comment has in mind, and with the parents of all copied paths in the
      base, the map order of the trie is harmless: any two orders of the survivors give the same
      filesystem, or both fail. */
  lemma SurvivorsReplayAnyOrder(cs: seq<Change>, a: seq<Change>, b: seq<Change>, base: Fs, src: Fs)
    requires AllCanonical(cs) && KnownKinds(cs) && OncePerPath(cs) && ParentClosed(cs)
    requires Distinct(a) && forall c :: c in a <==> Survives(cs, c)
    requires Distinct(b) && forall c :: c in b <==> Survives(cs, c)
    requires SurvivorParents(cs, base)
    ensures Replay(base, src, EditsOf(a)) == Replay(base, src, EditsOf(b))
    ensures Replay(base, src, EditsOf(a)).Done? <==> forall c :: Survives(cs, c) ==> Placed(base, src, EditOf(c))
  {
    SurvivorsIndependent(cs, a);
    SurvivorsIndependent(cs, b);
    forall e ensures e in EditsOf(a) <==> e in EditsOf(b) {
      if e in EditsOf(a) { EditShared(a, b, e); }
      if e in EditsOf(b) { EditShared(b, a, e); }
    }
    forall e | e in EditsOf(a) ensures exists c :: Survives(cs, c) && EditOf(c) == e { var j := EditAt(a, e); }
    forall c | Survives(cs, c) ensures EditOf(c) in EditsOf(a) {
      var i :| 0 <= i < |a| && a[i] == c;
      EditListed(a, i);
    }
    ReplayOrderIrrelevant(base, src, EditsOf(a), EditsOf(b));
  }

  lemma EditShared(a: seq<Change>, b: seq<Change>, e: Edit)
    requires e in EditsOf(a) && forall c :: c in a ==> c in b
    ensures e in EditsOf(b)
  {
    var j := EditAt(a, e);
    var i :| 0 <= i < |b| && b[i] == a[j];
    EditListed(b, i);
  }

  lemma SurvivorsIndependent(cs: seq<Change>, a: seq<Change>)
    requires AllCanonical(cs) && KnownKinds(cs) && OncePerPath(cs) && ParentClosed(cs)
    requires Distinct(a) && forall c :: c in a <==> Survives(cs, c)
    ensures Independent(EditsOf(a))
  {
    LeafRuleForParentClosed(cs);
    forall i, j | 0 <= i < |a| && 0 <= j < |a| && i != j ensures !(EditsOf(a)[i].path <= EditsOf(a)[j].path) {
      assert a[i] in a && a[j] in a && a[i] != a[j];
    }
  }

  // ------------------------------------------------------------ what a caller can check

  /** The change list and the two filesystems are what docker hands out. */
  ghost predicate Described(cs: seq<Change>, mounts: map<string, Mount>, base: Fs, src: Fs) {
    && Describes(cs, base, src) && WellFormed(base) && WellFormed(src)
    && NothingListedBelowMounts(base, src, MountKeys(mounts))
  }

  /** Every surviving copy has its parent directory in the base. */
  ghost predicate SurvivorParents(kept: seq<Change>, base: Fs) {
    forall c :: Survives(kept, c) && CopyKind(c.kind) ==> IsDir(base, Parent(Items(c.path)))
  }

  /** `q` is at or below a surviving copy. */
  ghost predicate CopiedBySurvivor(kept: seq<Change>, q: Key) {
    exists c :: Survives(kept, c) && CopyKind(c.kind) && Items(c.path) <= q
  }

  /** No entry off the mounts, or at or below a surviving copy, changed its type. */
  ghost predicate SurvivorTypes(kept: seq<Change>, mounts: set<Key>, base: Fs, src: Fs) {
    forall q :: q in base && q in src && (OffMount(mounts, q) || CopiedBySurvivor(kept, q)) ==>
      SameType(base[q], src[q])
  }

  /** No mount point lies strictly inside a surviving addition. */
  ghost predicate SurvivorsHoldNoMount(kept: seq<Change>, mounts: set<Key>) {
    forall c, m :: Survives(kept, c) && c.kind == ADD_ITEM && m in mounts && Items(c.path) <= m ==>
      m == Items(c.path)
  }

  lemma SameConditions(cs: seq<Change>, mounts: map<string, Mount>, base: Fs, src: Fs, diffs: seq<Change>)
    requires IsFiltered(diffs, cs, mounts)
    ensures var kept, keys, es := DropMounts(cs, mounts), MountKeys(mounts), EditsOf(diffs);
      && (SurvivorParents(kept, base) <==> ParentsPresent(base, es))
      && (SurvivorTypes(kept, keys, base, src) <==> TypesKept(base, src, keys, es))
      && (SurvivorsHoldNoMount(kept, keys) <==> NoMountInside(keys, es))
  {
    var kept, keys, es := DropMounts(cs, mounts), MountKeys(mounts), EditsOf(diffs);
    forall c | Survives(kept, c) ensures EditOf(c) in es {
      var i :| 0 <= i < |diffs| && diffs[i] == c;
      EditListed(diffs, i);
    }
    forall e | e in es ensures exists c :: Survives(kept, c) && EditOf(c) == e { var j := EditAt(diffs, e); }
    forall q ensures CopiedBySurvivor(kept, q) <==> Copied(es, q) {}
  }

  // ------------------------------------------------------------ the replay loop

  /** The container's new root filesystem. */
  class NewRootFs {
    var entries: Fs
    var mounted: bool

    constructor (entries: Fs)
      ensures this.entries == entries && !mounted
    {
      this.entries := entries;
      mounted := false;
    }

    /** `cp -ra src/p Dir(p)`; a failing copy is reported, the tree is then thrown away. */
    method CopyFrom(src: Fs, p: Key) returns (ok: bool)
      modifies this`entries
      ensures ok == CopyArchive(old(entries), src, p).Done?
      ensures entries == if ok then CopyArchive(old(entries), src, p).fs else old(entries)
    {
      match CopyArchive(entries, src, p)
      case Failed => ok := false;
      case Done(fs) => entries, ok := fs, true;
    }

    method Remove(p: Key)
      modifies this`entries
      ensures entries == RootFs.RemoveAll(old(entries), p)
    {
      entries := RootFs.RemoveAll(entries, p);
    }
  }

  /** What the replay promises: with parents present and types kept it works, and, unless a mount
      lies inside a surviving addition, it does not work otherwise; and a copy that cannot reach its
      place is an error. */
  ghost predicate Outcomes(cs: seq<Change>, mounts: map<string, Mount>, base: Fs, src: Fs, ok: bool, after: Fs) {
    var kept, keys := DropMounts(cs, mounts), MountKeys(mounts);
    var works := ok && Faithful(base, src, keys, after);
    && (SurvivorParents(kept, base) && SurvivorTypes(kept, keys, base, src) ==> works)
    && (SurvivorsHoldNoMount(kept, keys) && works ==>
          SurvivorParents(kept, base) && SurvivorTypes(kept, keys, base, src))
    && (ok ==> forall c :: !SurvivorUnreachable(kept, base, src, c))
  }

  /** A surviving copy that cannot reach its place: neither its parent nor the directory above is there,
      and no other surviving copy can put something in their place. */
  ghost predicate SurvivorUnreachable(kept: seq<Change>, base: Fs, src: Fs, c: Change) {
    && Survives(kept, c) && CopyKind(c.kind)
    && !IsDir(base, Parent(Items(c.path))) && !IsDir(base, Parent(Parent(Items(c.path))))
    && forall d :: Survives(kept, d) ==> CannotMake(base, src, EditOf(d), Parent(Parent(Items(c.path))))
  }

  /** Then the replay fails, whatever order the filter returns. */
  lemma UnreachableIsError(cs: seq<Change>, mounts: map<string, Mount>, base: Fs, src: Fs, diffs: seq<Change>,
                           c: Change)
    requires Described(cs, mounts, base, src) && IsFiltered(diffs, cs, mounts)
    requires SurvivorUnreachable(DropMounts(cs, mounts), base, src, c)
    ensures Replay(base, src, EditsOf(diffs)).Failed?
  {
    var es := EditsOf(diffs);
    FilteredIsSetting(cs, mounts, base, src, diffs);
    SettingApart(base, src, MountKeys(mounts), es);
    var i :| 0 <= i < |diffs| && diffs[i] == c;
    EditListed(diffs, i);
    forall e | e in es ensures CannotMake(base, src, e, Parent(Parent(Items(c.path)))) { var j := EditAt(diffs, e); }
    UnreachableFails(base, src, es, EditOf(c));
  }

  lemma OutcomesHold(cs: seq<Change>, mounts: map<string, Mount>, base: Fs, src: Fs, diffs: seq<Change>)
    requires Described(cs, mounts, base, src) && IsFiltered(diffs, cs, mounts)
    ensures match Replay(base, src, EditsOf(diffs)) {
      case Done(fs) => Outcomes(cs, mounts, base, src, true, fs)
      case Failed => forall after :: Outcomes(cs, mounts, base, src, false, after)
    }
  {
    var keys, es := MountKeys(mounts), EditsOf(diffs);
    FilteredIsSetting(cs, mounts, base, src, diffs);
    SameConditions(cs, mounts, base, src, diffs);
    if ParentsPresent(base, es) && TypesKept(base, src, keys, es) { ReplayPreservesMeaning(base, src, keys, es); }
    if NoMountInside(keys, es) { ReplayFaithfulIff(base, src, keys, es); }
    forall c | SurvivorUnreachable(DropMounts(cs, mounts), base, src, c) ensures Replay(base, src, es).Failed? {
      UnreachableIsError(cs, mounts, base, src, diffs, c);
    }
  }

  method TransformRWLayer(root: NewRootFs, src: Fs, reply: DiffReply, mounts: map<string, Mount>,
                          mountOk: bool, umountOk: bool)
    returns (ok: bool, ghost order: seq<Key>)
    modifies root
    ensures !mountOk || reply.DiffError? ==> !ok && root.entries == old(root.entries)
    ensures root.mounted == if mountOk then !umountOk else old(root.mounted)
    ensures mountOk && reply.Diff? ==> BreadthFirst(order, Build(DropMounts(reply.changes, mounts)))
    ensures mountOk && reply.Diff? && AllCanonical(reply.changes) ==>
      var r := Replay(old(root.entries), src, EditsOf(Emit(order, Build(DropMounts(reply.changes, mounts)))));
      ok == r.Done? && (ok ==> root.entries == r.fs)
    ensures mountOk && reply.Diff? && Described(reply.changes, mounts, old(root.entries), src) ==>
      Outcomes(reply.changes, mounts, old(root.entries), src, ok, root.entries)
  {
    ok, order := false, [];
    if !mountOk {
      return;
    }
    root.mounted := true;
    if reply.Diff? {
      ghost var base := root.entries;
      var changes;
      changes, order := ChangesFilter(reply.changes, mounts);
      ok := ReplayLoop(root, src, changes);
      if Described(reply.changes, mounts, base, src) {
        OutcomesHold(reply.changes, mounts, base, src, changes);
      }
    }
    if umountOk {
      root.mounted := false;
    }
  }

  method ReplayLoop(root: NewRootFs, src: Fs, changes: seq<Change>) returns (ok: bool)
    modifies root`entries
    ensures ok == Replay(old(root.entries), src, EditsOf(changes)).Done?
    ensures ok ==> root.entries == Replay(old(root.entries), src, EditsOf(changes)).fs
  {
    ghost var es, base := EditsOf(changes), root.entries;
    for idx := 0 to |changes|
      invariant Replay(base, src, es[..idx]) == Done(root.entries)
    {
      var path := Items(changes[idx].path);
      assert es[idx] == Edit(changes[idx].kind, path);
      ReplayTurn(base, src, es, idx);
      if CopyKind(changes[idx].kind) {
        var copied := root.CopyFrom(src, path);
        if !copied {
          ReplayStops(base, src, es, idx + 1);
          return false;
        }
      } else if changes[idx].kind == DEL_ITEM {
        root.Remove(path);
      }
    }
    assert es[..|es|] == es;
    ok := true;
  }

  /** A replay that failed on a part of the list fails on the list. */
  lemma {:induction false} ReplayStops(fs: Fs, src: Fs, es: seq<Edit>, n: nat)
    requires n <= |es| && Replay(fs, src, es[..n]) == Failed
    ensures Replay(fs, src, es) == Failed
    decreases |es|
  {
    if n < |es| {
      assert es[..|es| - 1][..n] == es[..n];
      ReplayStops(fs, src, es[..|es| - 1], n);
    } else {
      assert es[..n] == es;
    }
  }
}
