/** Concrete inputs on which the replay does not reproduce the container's filesystem. */
module ReplayExamples {
  import opened Paths
  import opened DiffSpec
  import opened RootFs
  import opened ReplayMeaning
  import opened ReplayConverse

  const EMPTY: Fs := map[[] := Dir("root")]

  lemma ChildFacts(d: string, f: string)
    ensures Parent([d]) == [] && Parent([d, f]) == [d]
    ensures [d] <= [d, f] && [d, f][|[d]|..] == [f]
  {
  }

  /** A new directory `d` that holds a new file `f`. */
  function NewFile(d: string, f: string): Fs {
    EMPTY[[d] := Dir("d")][[d, f] := Leaf("f", "data")]
  }

  /** The directory is dropped as a parent, the copy finds no destination directory, and the
      file takes the directory's place. */
  lemma NewDirectoryBecomesFile(d: string, f: string)
    ensures var src, es := NewFile(d, f), [Edit(ADD_ITEM, [d, f])];
      && Setting(EMPTY, src, {}, es)
      && Replay(EMPTY, src, es) == Done(EMPTY[[d] := Leaf("f", "data")])
      && !Faithful(EMPTY, src, {}, EMPTY[[d] := Leaf("f", "data")])
  {
    var src, e := NewFile(d, f), Edit(ADD_ITEM, [d, f]);
    ChildFacts(d, f);
    NewFileSetting(d, f);
    NewFileReplay(d, f);
    NotFaithfulAt(EMPTY, src, {}, EMPTY[[d] := Leaf("f", "data")], [d]);
  }

  lemma NewFileReplay(d: string, f: string)
    ensures Replay(EMPTY, NewFile(d, f), [Edit(ADD_ITEM, [d, f])]) == Done(EMPTY[[d] := Leaf("f", "data")])
  {
    var src, e := NewFile(d, f), Edit(ADD_ITEM, [d, f]);
    ChildFacts(d, f);
    assert src.Keys == {[], [d], [d, f]};
    TwoTurns(EMPTY, src, e, e);
    CopyElsewhere(EMPTY, src, [d, f]);
  }

  lemma NewFileSetting(d: string, f: string)
    ensures Setting(EMPTY, NewFile(d, f), {}, [Edit(ADD_ITEM, [d, f])])
  {
    var src, e := NewFile(d, f), Edit(ADD_ITEM, [d, f]);
    ChildFacts(d, f);
    assert src.Keys == {[], [d], [d, f]};
    NewTree(src, d);
    forall k ensures k in [e] <==> IsKept(EMPTY, src, {}, k) {
      if k == e {
        assert Listed(EMPTY, src, e);
      } else if k.path == [d] && Listed(EMPTY, src, k) {
        assert Unmounted(EMPTY, src, {}, e) && k.path <= e.path;
      }
    }
  }

  /** Against an empty base, exactly the entries of the old filesystem are listed, as added. */
  lemma NewTree(src: Fs, d: string)
    requires [] in src && src[[]] == EMPTY[[]]
    requires forall q :: q in src && q != [] ==> [d] <= q
    ensures forall e :: Listed(EMPTY, src, e) <==> e.kind == ADD_ITEM && e.path in src && e.path != []
  {
  }

  /** Two new directories, one in the other, and a new file in the inner one. */
  function Nested(a: string, b: string, c: string): Fs {
    EMPTY[[a] := Dir("a")][[a, b] := Dir("b")][[a, b, c] := Leaf("c", "data")]
  }

  lemma NestedListed(a: string, b: string, c: string)
    ensures forall x :: Listed(EMPTY, Nested(a, b, c), x) <==>
      x.kind == ADD_ITEM && (x.path == [a] || x.path == [a, b] || x.path == [a, b, c])
  {
    var src := Nested(a, b, c);
    assert [a] <= [a, b] && [a] <= [a, b, c];
    assert src.Keys == {[], [a], [a, b], [a, b, c]};
    NewTree(src, a);
  }

  lemma NestedWellFormed(a: string, b: string, c: string)
    ensures WellFormed(Nested(a, b, c)) && WellFormed(EMPTY)
  {
    var src := Nested(a, b, c);
    assert src.Keys == {[], [a], [a, b], [a, b, c]};
    assert Parent([a]) == [] && Parent([a, b]) == [a] && Parent([a, b, c]) == [a, b];
  }

  lemma NestedKept(a: string, b: string, c: string, x: Edit)
    ensures IsKept(EMPTY, Nested(a, b, c), {}, x) <==> x == Edit(ADD_ITEM, [a, b, c])
  {
    var k := Edit(ADD_ITEM, [a, b, c]);
    NestedListed(a, b, c);
    assert Unmounted(EMPTY, Nested(a, b, c), {}, k);
    assert [a] <= [a, b, c] && [a, b] <= [a, b, c];
    if x.path == [a] || x.path == [a, b] { assert x.path <= k.path && k.path != x.path; }
  }

  lemma NestedSetting(a: string, b: string, c: string)
    ensures Setting(EMPTY, Nested(a, b, c), {}, [Edit(ADD_ITEM, [a, b, c])])
  {
    NestedWellFormed(a, b, c);
    forall x ensures x in [Edit(ADD_ITEM, [a, b, c])] <==> IsKept(EMPTY, Nested(a, b, c), {}, x) {
      NestedKept(a, b, c, x);
    }
  }

  lemma NestedUnreachable(a: string, b: string, c: string)
    ensures var p := Edit(ADD_ITEM, [a, b, c]); Unreachable(EMPTY, Nested(a, b, c), [p], p)
  {
    assert Parent([a, b, c]) == [a, b] && Parent([a, b]) == [a];
    assert !([a, b] <= [a]);
  }

  /** Only the file survives; its directory and the one above are missing, and the replay fails. */
  lemma NestedDirectoriesFail(a: string, b: string, c: string)
    ensures var src, es := Nested(a, b, c), [Edit(ADD_ITEM, [a, b, c])];
      Setting(EMPTY, src, {}, es) && Replay(EMPTY, src, es).Failed?
  {
    var p := Edit(ADD_ITEM, [a, b, c]);
    NestedSetting(a, b, c);
    NestedUnreachable(a, b, c);
    OneIsApart(p);
    UnreachableFails(EMPTY, Nested(a, b, c), [p], p);
  }

  lemma OneIsApart(p: Edit)
    requires p.path != []
    ensures Apart([p]) && p in [p]
  {
  }

  function OneFile(f: string, data: string): Fs { EMPTY[[f] := Leaf("f", data)] }

  lemma ChangedFileSetting(f: string)
    ensures Setting(OneFile(f, "old"), OneFile(f, "new"), {}, [Edit(CHANGE_ITEM, [f])])
  {
    var base, src, e := OneFile(f, "old"), OneFile(f, "new"), Edit(CHANGE_ITEM, [f]);
    assert base.Keys == {[], [f]} && src.Keys == {[], [f]};
    OnlyFileListed(f);
    forall d ensures IsKept(base, src, {}, d) <==> d in [e] {}
  }

  lemma OnlyFileListed(f: string)
    ensures forall d :: Listed(OneFile(f, "old"), OneFile(f, "new"), d) <==> d == Edit(CHANGE_ITEM, [f])
  {
    var base, src := OneFile(f, "old"), OneFile(f, "new");
    assert base.Keys == {[], [f]} && src.Keys == {[], [f]};
    assert base[[]] == src[[]];
    forall d ensures Listed(base, src, d) <==> d == Edit(CHANGE_ITEM, [f]) {
      if d.path != [f] { assert d.path == [] || (d.path !in base && d.path !in src); }
    }
  }

  lemma ChangedFileCondition(f: string)
    ensures var base, src, es := OneFile(f, "old"), OneFile(f, "new"), [Edit(CHANGE_ITEM, [f])];
      && ParentsPresent(base, es) && TypesKept(base, src, {}, es)
      && Patched(base, src, es) == src
  {
    var base, src, e := OneFile(f, "old"), OneFile(f, "new"), Edit(CHANGE_ITEM, [f]);
    assert base.Keys == {[], [f]} && src.Keys == {[], [f]};
    assert e in [e] && Copied([e], [f]) && !Copied([e], []);
  }

  /** A changed file: the condition of the main theorem can hold with something to replay. */
  lemma ConditionCanHold(f: string)
    ensures var base, src, es := OneFile(f, "old"), OneFile(f, "new"), [Edit(CHANGE_ITEM, [f])];
      && Setting(base, src, {}, es) && NoMountInside({}, es)
      && ParentsPresent(base, es) && TypesKept(base, src, {}, es)
      && Replay(base, src, es) == Done(src)
  {
    ChangedFileSetting(f);
    ChangedFileCondition(f);
    ReplayPreservesMeaning(OneFile(f, "old"), OneFile(f, "new"), {}, [Edit(CHANGE_ITEM, [f])]);
  }

  /** A new directory `d` that holds a new empty directory `e` and a new file `f`. */
  function NewDirectory(d: string, e: string, f: string): Fs {
    EMPTY[[d] := Dir("d")][[d, e] := Dir("e")][[d, f] := Leaf("f", "data")]
  }

  /** Which of the two the map yields first decides whether the replay goes through. */
  lemma OrderMatters(d: string, e: string, f: string)
    requires e != f
    ensures var src := NewDirectory(d, e, f);
      && Replay(EMPTY, src, [Edit(ADD_ITEM, [d, e]), Edit(ADD_ITEM, [d, f])]).Done?
      && Replay(EMPTY, src, [Edit(ADD_ITEM, [d, f]), Edit(ADD_ITEM, [d, e])]).Failed?
  {
    var src := NewDirectory(d, e, f);
    TwoTurns(EMPTY, src, Edit(ADD_ITEM, [d, e]), Edit(ADD_ITEM, [d, f]));
    TwoTurns(EMPTY, src, Edit(ADD_ITEM, [d, f]), Edit(ADD_ITEM, [d, e]));
    DirectoryFirst(d, e, f);
    FileFirst(d, e, f);
  }

  lemma DirectoryFirst(d: string, e: string, f: string)
    requires e != f
    ensures CopyArchive(EMPTY, NewDirectory(d, e, f), [d, e]) == Done(EMPTY[[d] := Dir("e")])
    ensures CopyArchive(EMPTY[[d] := Dir("e")], NewDirectory(d, e, f), [d, f]).Done?
  {
    var src := NewDirectory(d, e, f);
    assert src.Keys == {[], [d], [d, e], [d, f]};
    ChildFacts(d, e);
    ChildFacts(d, f);
    CopyElsewhere(EMPTY, src, [d, e]);
    var next := EMPTY[[d] := Dir("e")];
    ClashInPlace(next, next, src, [d, f]);
  }

  lemma FileFirst(d: string, e: string, f: string)
    requires e != f
    ensures CopyArchive(EMPTY, NewDirectory(d, e, f), [d, f]) == Done(EMPTY[[d] := Leaf("f", "data")])
    ensures CopyArchive(EMPTY[[d] := Leaf("f", "data")], NewDirectory(d, e, f), [d, e]).Failed?
  {
    var src := NewDirectory(d, e, f);
    assert src.Keys == {[], [d], [d, e], [d, f]};
    ChildFacts(d, e);
    ChildFacts(d, f);
    CopyElsewhere(EMPTY, src, [d, f]);
    assert [d, e] in src && Moved([d, e], [d], [d, e]) == [d];
    assert Clash(EMPTY[[d] := Leaf("f", "data")], src, [d, e], [d]);
  }

  lemma TwoTurns(fs: Fs, src: Fs, a: Edit, b: Edit)
    ensures Replay(fs, src, [a]) == Apply(fs, src, a)
    ensures Replay(fs, src, [a, b]) ==
      match Apply(fs, src, a) {
        case Failed => Failed
        case Done(fs') => Apply(fs', src, b)
      }
  {
    assert Replay(fs, src, []) == Done(fs);
    assert [a][..0] == [];
    assert [a, b][..1] == [a];
  }

  /** A new directory `d` with a new directory `e` in it, which has a mount point of the same name. */
  function MountInside(d: string, e: string): Fs {
    EMPTY[[d] := Dir("d")][[d, e] := Dir("e")][[d, e, e] := Dir("e")]
  }

  /** Why the converse leaves out mounts inside added entries: here a parent is missing, and
      the copy of the mount point happens to put everything in place. */
  lemma MountInsideCanRepair(d: string, e: string)
    ensures var src, mounts, es := MountInside(d, e), {[d, e, e]}, [Edit(ADD_ITEM, [d, e])];
      && Setting(EMPTY, src, mounts, es)
      && !ParentsPresent(EMPTY, es)
      && Replay(EMPTY, src, es) == Done(EMPTY[[d] := Dir("e")][[d, e] := Dir("e")])
      && Faithful(EMPTY, src, mounts, EMPTY[[d] := Dir("e")][[d, e] := Dir("e")])
  {
    MountInsideSetting(d, e);
    MountInsideReplay(d, e);
    MountInsideFaithful(d, e);
  }

  lemma MountInsideReplay(d: string, e: string)
    ensures var es := [Edit(ADD_ITEM, [d, e])];
      && !ParentsPresent(EMPTY, es)
      && Replay(EMPTY, MountInside(d, e), es) == Done(EMPTY[[d] := Dir("e")][[d, e] := Dir("e")])
  {
    var src, k := MountInside(d, e), Edit(ADD_ITEM, [d, e]);
    RepairingCopy(src, d, e);
    ChildFacts(d, e);
    TwoTurns(EMPTY, src, k, k);
    assert k in [k];
  }

  lemma MountInsideListed(d: string, e: string)
    ensures forall x :: Listed(EMPTY, MountInside(d, e), x) <==>
      x.kind == ADD_ITEM && (x.path == [d] || x.path == [d, e] || x.path == [d, e, e])
  {
    var src := MountInside(d, e);
    assert [d] <= [d, e] && [d] <= [d, e, e];
    assert src.Keys == {[], [d], [d, e], [d, e, e]};
    NewTree(src, d);
  }

  lemma MountInsideWellFormed(d: string, e: string)
    ensures WellFormed(MountInside(d, e)) && WellFormed(EMPTY)
  {
    var src := MountInside(d, e);
    assert src.Keys == {[], [d], [d, e], [d, e, e]};
    assert Parent([d]) == [] && Parent([d, e]) == [d] && Parent([d, e, e]) == [d, e];
  }

  lemma MountInsideKept(d: string, e: string, x: Edit)
    ensures IsKept(EMPTY, MountInside(d, e), {[d, e, e]}, x) <==> x == Edit(ADD_ITEM, [d, e])
  {
    var src, mounts, k := MountInside(d, e), {[d, e, e]}, Edit(ADD_ITEM, [d, e]);
    MountInsideListed(d, e);
    assert Unmounted(EMPTY, src, mounts, k);
    assert [d] <= [d, e] && !([d, e] <= [d]);
    if x.path == [d] { assert x.path <= k.path && k.path != x.path; }
  }

  lemma MountInsideSetting(d: string, e: string)
    ensures Setting(EMPTY, MountInside(d, e), {[d, e, e]}, [Edit(ADD_ITEM, [d, e])])
  {
    MountInsideWellFormed(d, e);
    MountInsideListed(d, e);
    forall x ensures x in [Edit(ADD_ITEM, [d, e])] <==> IsKept(EMPTY, MountInside(d, e), {[d, e, e]}, x) {
      MountInsideKept(d, e, x);
    }
  }

  lemma MountInsideFaithful(d: string, e: string)
    ensures Faithful(EMPTY, MountInside(d, e), {[d, e, e]}, EMPTY[[d] := Dir("e")][[d, e] := Dir("e")])
  {
    var src, mounts, k := MountInside(d, e), {[d, e, e]}, Edit(ADD_ITEM, [d, e]);
    var r: Fs := EMPTY[[d] := Dir("e")][[d, e] := Dir("e")];
    ChildFacts(d, e);
    assert Unmounted(EMPTY, src, mounts, k);
    assert AboveListed(EMPTY, src, mounts, [d]);
    forall q | OffMount(mounts, q)
      ensures q in r <==> q in src
      ensures q in r && q in src ==> SameEntry(EMPTY, src, mounts, r, q)
    {
      assert [d, e, e] in mounts && q != [d, e, e];
    }
  }

  lemma RepairingCopy(src: Fs, d: string, e: string)
    requires src == MountInside(d, e)
    ensures Graft(EMPTY, src, [d, e], [d]) == Done(EMPTY[[d] := Dir("e")][[d, e] := Dir("e")])
  {
    var r: Fs := EMPTY[[d] := Dir("e")][[d, e] := Dir("e")];
    assert src.Keys == {[], [d], [d, e], [d, e, e]};
    assert Moved([d, e], [d], [d, e]) == [d];
    assert Moved([d, e], [d], [d, e, e]) == [d, e] by { assert [d, e, e][2..] == [e]; }
    assert Landing(src, [d, e], [d]) == {[d], [d, e]};
    assert [d, e] + [d][1..] == [d, e];
    assert [d, e] + [d, e][1..] == [d, e, e];
    assert Written(src, [d, e], [d], [d]) && Written(src, [d, e], [d], [d, e]);
    assert !Written(src, [d, e], [d], []);
    assert Graft(EMPTY, src, [d, e], [d]).fs == r;
  }
}
