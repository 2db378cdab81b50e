/** The other direction: a replay whose condition fails does not give the old filesystem. */
module ReplayConverse {
  import opened Paths
  import opened Lists
  import opened DiffSpec
  import opened RootFs
  import opened ReplayMeaning

  /** No mount point lies strictly inside an added entry that survives. */
  ghost predicate NoMountInside(mounts: set<Key>, es: seq<Edit>) {
    forall e, m :: e in es && e.kind == ADD_ITEM && m in mounts && e.path <= m ==> m == e.path
  }

  /** Kept changes lie apart. */
  lemma KeptApart(base: Fs, src: Fs, mounts: set<Key>, es: seq<Edit>, d: Edit, e: Edit)
    requires Setting(base, src, mounts, es) && d in es && e in es
    ensures d.path <= e.path ==> d == e
  {
    assert IsKept(base, src, mounts, d) && IsKept(base, src, mounts, e);
    if d.path <= e.path { KeptOnce(base, src, mounts, d, e); }
  }

  /** A kept addition has nothing below it in the old filesystem. */
  lemma AddedIsAlone(base: Fs, src: Fs, mounts: set<Key>, es: seq<Edit>, e: Edit, q: Key)
    requires Setting(base, src, mounts, es) && NoMountInside(mounts, es)
    requires e in es && e.kind == ADD_ITEM && q in src && e.path <= q
    ensures q == e.path
  {
    assert IsKept(base, src, mounts, e) && e.path !in base;
    if q != e.path {
      NewBelowNew(base, src, e.path, q);
      assert q !in mounts;
      assert Unmounted(base, src, mounts, Edit(ADD_ITEM, q));
    }
  }

  lemma NewBelowNew(base: Fs, src: Fs, p: Key, q: Key)
    requires WellFormed(base) && p !in base && q in src && p <= q && p != q
    ensures Listed(base, src, Edit(ADD_ITEM, q))
  {
    if q in base { AncestorIsDir(base, p, q); }
  }

  // ------------------------------------------------------------ a missing parent

  /** What the argument needs of the surviving changes. */
  ghost predicate Terms(base: Fs, src: Fs, es: seq<Edit>) {
    && Distinct(es)
    && (forall d, e :: d in es && e in es && d.path <= e.path ==> d == e)
    && forall e :: e in es ==> Term(base, src, e)
  }

  ghost predicate Term(base: Fs, src: Fs, e: Edit) {
    && e.path != [] && (CopyKind(e.kind) || e.kind == DEL_ITEM)
    && (CopyKind(e.kind) ==> e.path in src)
    && (e.kind == CHANGE_ITEM ==> IsDir(base, Parent(e.path)))
    && (e.kind == ADD_ITEM ==> forall q :: q in src && e.path <= q ==> q == e.path)
  }

  lemma SettingTerms(base: Fs, src: Fs, mounts: set<Key>, es: seq<Edit>)
    requires Setting(base, src, mounts, es) && NoMountInside(mounts, es)
    ensures Terms(base, src, es)
  {
    forall d, e | d in es && e in es && d.path <= e.path ensures d == e {
      KeptApart(base, src, mounts, es, d, e);
    }
    forall e | e in es ensures Term(base, src, e) {
      assert IsKept(base, src, mounts, e);
      if e.kind == ADD_ITEM {
        forall q | q in src && e.path <= q ensures q == e.path { AddedIsAlone(base, src, mounts, es, e, q); }
      }
    }
  }

  /** `d` is not a directory and has nothing below it. */
  ghost predicate Bare(fs: Fs, d: Key) {
    !IsDir(fs, d) && forall q :: q in fs && d <= q ==> q == d
  }

  /** One of the changes already replayed is missing from `fs`. */
  ghost predicate Lost(fs: Fs, es: seq<Edit>, n: nat) {
    exists j :: 0 <= j < n && j < |es| && CopyKind(es[j].kind) && es[j].path !in fs
  }

  /** Parents that the base has are still there. */
  ghost predicate ParentsStay(base: Fs, fs: Fs, es: seq<Edit>) {
    forall e :: e in es && CopyKind(e.kind) && IsDir(base, Parent(e.path)) ==> IsDir(fs, Parent(e.path))
  }

  /** What every turn of a replay keeps once the parent `d` of a kept path is no directory of the base. */
  ghost predicate Broken(base: Fs, fs: Fs, es: seq<Edit>, d: Key, n: nat) {
    ParentsStay(base, fs, es) && (Bare(fs, d) || Lost(fs, es, n))
  }

  lemma DeleteKeepsBroken(base: Fs, src: Fs, es: seq<Edit>, fs: Fs, d: Key, n: nat)
    requires Terms(base, src, es) && n < |es| && es[n].kind == DEL_ITEM
    requires Broken(base, fs, es, d, n)
    ensures Broken(base, RemoveAll(fs, es[n].path), es, d, n + 1)
  {
    var after := RemoveAll(fs, es[n].path);
    forall e | e in es && CopyKind(e.kind) && IsDir(base, Parent(e.path)) ensures IsDir(after, Parent(e.path)) {
      PrefixTrans(es[n].path, Parent(e.path), e.path);
    }
    if Lost(fs, es, n) {
      var j :| 0 <= j < n && CopyKind(es[j].kind) && es[j].path !in fs;
      assert es[j].path !in after;
    }
  }

  /** A copy that meets no clash turns no directory into something else. */
  lemma ParentsStayAfter(base: Fs, fs: Fs, after: Fs, es: seq<Edit>)
    requires ParentsStay(base, fs, es)
    requires forall q :: IsDir(fs, q) ==> IsDir(after, q)
    ensures ParentsStay(base, after, es)
  {
  }

  lemma CopyInPlaceKeepsBroken(base: Fs, src: Fs, es: seq<Edit>, fs: Fs, p: Edit, n: nat)
    requires Terms(base, src, es) && n < |es| && CopyKind(es[n].kind)
    requires p in es && Broken(base, fs, es, Parent(p.path), n)
    requires IsDir(fs, Parent(es[n].path)) && !Clash(fs, src, es[n].path, es[n].path)
    ensures Broken(base, Graft(fs, src, es[n].path, es[n].path).fs, es, Parent(p.path), n + 1)
  {
    var e, d := es[n], Parent(p.path);
    var after := Graft(fs, src, e.path, e.path).fs;
    GraftInPlace(fs, src, e.path);
    assert forall q :: IsDir(fs, q) ==> IsDir(after, q) by {
      ClashInPlace(fs, fs, src, e.path);
    }
    ParentsStayAfter(base, fs, after, es);
    assert p.path != [] && e.path != [] by { assert Term(base, src, p) && Term(base, src, e); }
    if Lost(fs, es, n) {
      var j :| 0 <= j < n && CopyKind(es[j].kind) && es[j].path !in fs;
      assert es[j] != e && !(e.path <= es[j].path);
      assert es[j].path !in after;
    } else {
      assert e.path <= p.path ==> e == p;
      forall q | q in after && d <= q ensures q in fs { ApartFromBare(fs, p.path, e.path, q); }
      assert Bare(after, d);
    }
  }

  /** A change copied into an existing directory touches nothing at or below a bare path. */
  lemma ApartFromBare(fs: Fs, p: Key, e: Key, q: Key)
    requires p != [] && e != [] && (e <= p ==> e == p)
    requires Bare(fs, Parent(p)) && IsDir(fs, Parent(e))
    ensures !(Parent(p) <= q && e <= q)
  {
    var d := Parent(p);
    if d <= q && e <= q {
      Comparable(d, e, q);
      PrefixTrans(e, d, p);
      BelowParent(d, e);
      assert false;
    }
  }

  /** A change whose parent is missing replaces the parent by a copy of itself. */
  lemma CopyElsewhere(fs: Fs, src: Fs, p: Key)
    requires p != [] && p in src && forall q :: q in src && p <= q ==> q == p
    requires !Clash(fs, src, p, Parent(p))
    ensures Graft(fs, src, p, Parent(p)) == Done(fs[Parent(p) := src[p]])
    ensures Parent(p) in fs ==> SameType(src[p], fs[Parent(p)])
  {
    var g := Parent(p);
    assert Moved(p, g, p) == g;
    assert p + g[|g|..] == p;
    forall q ensures Written(src, p, g, q) <==> q == g {
      if Written(src, p, g, q) { assert q == g + q[|g|..] && p <= p + q[|g|..]; assert |p + q[|g|..]| == |p|; }
    }
    assert Landing(src, p, g) == {g};
    assert Graft(fs, src, p, g).fs == fs[g := src[p]];
  }

  lemma CopyElsewhereKeepsBroken(base: Fs, src: Fs, es: seq<Edit>, fs: Fs, p: Edit, n: nat)
    requires Terms(base, src, es) && n < |es| && CopyKind(es[n].kind)
    requires p in es && Broken(base, fs, es, Parent(p.path), n)
    requires !IsDir(fs, Parent(es[n].path)) && IsDir(fs, Parent(Parent(es[n].path)))
    requires !Clash(fs, src, es[n].path, Parent(es[n].path))
    ensures Broken(base, Graft(fs, src, es[n].path, Parent(es[n].path)).fs, es, Parent(p.path), n + 1)
  {
    var e, d, g := es[n], Parent(p.path), Parent(es[n].path);
    assert Term(base, src, e);
    CopyElsewhere(fs, src, e.path);
    var after := fs[g := src[e.path]];
    ParentsStayAfter(base, fs, after, es);
    assert g != e.path && g <= e.path;
    if Lost(fs, es, n) {
      var j :| 0 <= j < n && CopyKind(es[j].kind) && es[j].path !in fs;
      assert es[j] != e && es[j].path != g;
      assert es[j].path !in after;
    } else if g == d {
      if src[e.path].Dir? {
        assert d <= e.path && e.path !in after;
        assert es[n] == e && Lost(after, es, n + 1);
      } else {
        assert Bare(after, d);
      }
    } else {
      BelowParent(d, g);
      assert Bare(after, d);
    }
  }

  lemma StartsBroken(base: Fs, es: seq<Edit>, d: Key)
    requires WellFormed(base) && !IsDir(base, d)
    ensures Broken(base, base, es, d, 0)
  {
    forall q | q in base && d <= q ensures q == d {
      if q != d { AncestorIsDir(base, d, q); }
    }
    assert Bare(base, d);
    assert ParentsStay(base, base, es);
  }

  /** A replay that has failed, or is broken after `n` turns. */
  ghost predicate BrokenAfter(base: Fs, r: Outcome, es: seq<Edit>, d: Key, n: nat) {
    r.Done? ==> Broken(base, r.fs, es, d, n)
  }

  lemma {:induction false} StaysBroken(base: Fs, src: Fs, es: seq<Edit>, p: Edit, n: nat)
    requires WellFormed(base) && Terms(base, src, es) && n <= |es|
    requires p in es && CopyKind(p.kind) && !IsDir(base, Parent(p.path))
    ensures BrokenAfter(base, Replay(base, src, es[..n]), es, Parent(p.path), n)
  {
    if n == 0 {
      StartsBroken(base, es, Parent(p.path));
      assert Replay(base, src, es[..0]) == Done(base);
    } else {
      var k := n - 1;
      StaysBroken(base, src, es, p, k);
      NextStaysBroken(base, src, es, Replay(base, src, es[..k]), p, k);
      ReplayTurn(base, src, es, k);
      FailedIsBroken(base, es, Parent(p.path), n);
    }
  }

  lemma FailedIsBroken(base: Fs, es: seq<Edit>, d: Key, n: nat)
    ensures BrokenAfter(base, Failed, es, d, n)
  {
  }

  lemma NextStaysBroken(base: Fs, src: Fs, es: seq<Edit>, r: Outcome, p: Edit, n: nat)
    requires Terms(base, src, es) && n < |es| && p in es
    requires BrokenAfter(base, r, es, Parent(p.path), n)
    ensures r.Done? ==> BrokenAfter(base, Apply(r.fs, src, es[n]), es, Parent(p.path), n + 1)
  {
    if r.Done? { TurnKeepsBroken(base, src, es, r.fs, p, n); }
  }

  lemma TurnKeepsBroken(base: Fs, src: Fs, es: seq<Edit>, fs: Fs, p: Edit, n: nat)
    requires Terms(base, src, es) && n < |es| && p in es
    requires Broken(base, fs, es, Parent(p.path), n)
    ensures var r := Apply(fs, src, es[n]); r.Done? ==> Broken(base, r.fs, es, Parent(p.path), n + 1)
  {
    var e := es[n];
    assert Term(base, src, e);
    if Apply(fs, src, e).Done? {
      if e.kind == DEL_ITEM {
        DeleteKeepsBroken(base, src, es, fs, Parent(p.path), n);
      } else if IsDir(fs, Parent(e.path)) {
        CopyInPlaceKeepsBroken(base, src, es, fs, p, n);
      } else {
        CopyElsewhereKeepsBroken(base, src, es, fs, p, n);
      }
    }
  }

  lemma MissingParentBreaks(base: Fs, src: Fs, mounts: set<Key>, es: seq<Edit>, p: Edit)
    requires Setting(base, src, mounts, es) && NoMountInside(mounts, es)
    requires p in es && CopyKind(p.kind) && !IsDir(base, Parent(p.path))
    ensures var r := Replay(base, src, es); r.Done? ==> !Faithful(base, src, mounts, r.fs)
  {
    SettingTerms(base, src, mounts, es);
    EndsBroken(base, src, es, p);
    var r := Replay(base, src, es);
    if r.Done? { BrokenShows(base, src, mounts, es, p, r.fs); }
  }

  lemma EndsBroken(base: Fs, src: Fs, es: seq<Edit>, p: Edit)
    requires WellFormed(base) && Terms(base, src, es)
    requires p in es && CopyKind(p.kind) && !IsDir(base, Parent(p.path))
    ensures var r := Replay(base, src, es); r.Done? ==> Bare(r.fs, Parent(p.path)) || Lost(r.fs, es, |es|)
  {
    StaysBroken(base, src, es, p, |es|);
    assert es[..|es|] == es;
    BrokenEnds(base, Replay(base, src, es), es, Parent(p.path));
  }

  lemma BrokenEnds(base: Fs, r: Outcome, es: seq<Edit>, d: Key)
    requires BrokenAfter(base, r, es, d, |es|)
    ensures r.Done? ==> Bare(r.fs, d) || Lost(r.fs, es, |es|)
  {
  }

  lemma BrokenShows(base: Fs, src: Fs, mounts: set<Key>, es: seq<Edit>, p: Edit, r: Fs)
    requires Setting(base, src, mounts, es) && p in es && CopyKind(p.kind)
    requires Bare(r, Parent(p.path)) || Lost(r, es, |es|)
    ensures !Faithful(base, src, mounts, r)
  {
    if Lost(r, es, |es|) {
      var j :| 0 <= j < |es| && CopyKind(es[j].kind) && es[j].path !in r;
      KeptInOld(base, src, mounts, es, es[j]);
      NotFaithfulAt(base, src, mounts, r, es[j].path);
    } else {
      KeptInOld(base, src, mounts, es, p);
      NotFaithfulAt(base, src, mounts, r, Parent(p.path));
    }
  }

  lemma NotFaithfulAt(base: Fs, src: Fs, mounts: set<Key>, r: Fs, q: Key)
    requires OffMount(mounts, q) && q in src && (q in r ==> !SameType(r[q], src[q]))
    ensures !Faithful(base, src, mounts, r)
  {
    assert q in r ==> !SameEntry(base, src, mounts, r, q);
  }

  lemma KeptInOld(base: Fs, src: Fs, mounts: set<Key>, es: seq<Edit>, e: Edit)
    requires Setting(base, src, mounts, es) && e in es && CopyKind(e.kind)
    ensures OffMount(mounts, e.path) && e.path in src
    ensures OffMount(mounts, Parent(e.path)) && IsDir(src, Parent(e.path))
  {
    assert IsKept(base, src, mounts, e);
    CopiedIsOld(base, src, e);
    KeptOffMount(base, src, mounts, e);
    OffMountAbove(mounts, Parent(e.path), e.path);
  }

  lemma CopiedIsOld(base: Fs, src: Fs, e: Edit)
    requires WellFormed(src) && Listed(base, src, e) && CopyKind(e.kind)
    ensures e.path in src && IsDir(src, Parent(e.path))
  {
  }

  // ------------------------------------------------------------ a copy that must fail

  /** A change that cannot make `g`, or anything above it, a directory: its parent is one of the base's,
      or lies strictly above `g` and would only be replaced by this one entry. */
  ghost predicate CannotMake(base: Fs, src: Fs, e: Edit, g: Key) {
    CopyKind(e.kind) && Parent(e.path) <= g ==>
      IsDir(base, Parent(e.path)) || (Parent(e.path) != g && forall q :: q in src && e.path <= q ==> q == e.path)
  }

  /** Neither the parent of `p` nor the directory above it is there, and nothing can make them. */
  ghost predicate Unreachable(base: Fs, src: Fs, es: seq<Edit>, p: Edit) {
    && CopyKind(p.kind) && !IsDir(base, Parent(p.path)) && !IsDir(base, Parent(Parent(p.path)))
    && forall e :: e in es ==> CannotMake(base, src, e, Parent(Parent(p.path)))
  }

  /** Kept changes lie apart, below the root. */
  ghost predicate Apart(es: seq<Edit>) {
    && (forall e :: e in es ==> e.path != [])
    && forall d, e :: d in es && e in es && d.path <= e.path ==> d == e
  }

  /** What stays so until the turn of `p` comes. */
  ghost predicate StillMissing(base: Fs, fs: Fs, es: seq<Edit>, p: Edit) {
    ParentsStay(base, fs, es) && !IsDir(fs, Parent(p.path)) && !IsDir(fs, Parent(Parent(p.path)))
  }

  lemma DeleteKeepsMissing(base: Fs, fs: Fs, es: seq<Edit>, e: Edit, p: Edit)
    requires Apart(es) && e in es && e.kind == DEL_ITEM && StillMissing(base, fs, es, p)
    ensures StillMissing(base, RemoveAll(fs, e.path), es, p)
  {
    var after := RemoveAll(fs, e.path);
    forall d | d in es && CopyKind(d.kind) && IsDir(base, Parent(d.path)) ensures IsDir(after, Parent(d.path)) {
      PrefixTrans(e.path, Parent(d.path), d.path);
    }
  }

  lemma InPlaceKeepsMissing(base: Fs, src: Fs, fs: Fs, es: seq<Edit>, e: Edit, p: Edit)
    requires Apart(es) && e in es && p in es && e != p && StillMissing(base, fs, es, p)
    requires !Clash(fs, src, e.path, e.path)
    ensures StillMissing(base, Graft(fs, src, e.path, e.path).fs, es, p)
  {
    var after := Graft(fs, src, e.path, e.path).fs;
    GraftInPlace(fs, src, e.path);
    ClashInPlace(fs, fs, src, e.path);
    ParentsStayAfter(base, fs, after, es);
    PrefixTrans(e.path, Parent(p.path), p.path);
    PrefixTrans(e.path, Parent(Parent(p.path)), p.path);
  }

  /** A copy elsewhere writes at and below the parent of its path only. */
  lemma GraftElsewhere(fs: Fs, src: Fs, p: Key, target: Key, q: Key)
    requires !Clash(fs, src, p, target) && !(target <= q)
    ensures IsDir(Graft(fs, src, p, target).fs, q) <==> IsDir(fs, q)
  {
  }

  lemma GraftKeepsDirs(fs: Fs, src: Fs, p: Key, target: Key, q: Key)
    requires !Clash(fs, src, p, target) && IsDir(fs, q)
    ensures IsDir(Graft(fs, src, p, target).fs, q)
  {
    if Written(src, p, target, q) {
      var from := p + q[|target|..];
      assert p <= from && Moved(p, target, from) == q;
    }
  }

  lemma ElsewhereKeepsMissing(base: Fs, src: Fs, fs: Fs, es: seq<Edit>, e: Edit, p: Edit)
    requires Apart(es) && e in es && p in es && CopyKind(e.kind) && StillMissing(base, fs, es, p)
    requires CannotMake(base, src, e, Parent(Parent(p.path)))
    requires !IsDir(fs, Parent(e.path)) && IsDir(fs, Parent(Parent(e.path))) && !Clash(fs, src, e.path, Parent(e.path))
    ensures StillMissing(base, Graft(fs, src, e.path, Parent(e.path)).fs, es, p)
  {
    var t, d, g := Parent(e.path), Parent(p.path), Parent(Parent(p.path));
    var after := Graft(fs, src, e.path, t).fs;
    forall q | IsDir(fs, q) ensures IsDir(after, q) { GraftKeepsDirs(fs, src, e.path, t, q); }
    ParentsStayAfter(base, fs, after, es);
    assert t != d;
    if t <= g {
      assert t != g;
      if e.path in src { CopyElsewhere(fs, src, e.path); } else { NothingGrafted(fs, src, e.path, t); }
    } else {
      BelowParent(t, d);
      GraftElsewhere(fs, src, e.path, t, d);
      GraftElsewhere(fs, src, e.path, t, g);
    }
  }

  lemma NothingGrafted(fs: Fs, src: Fs, p: Key, target: Key)
    requires !Clash(fs, src, p, target) && forall q :: q in src ==> !(p <= q)
    ensures Graft(fs, src, p, target) == Done(fs)
  {
    forall q ensures !Written(src, p, target, q) {
      if target <= q { assert p <= p + q[|target|..]; }
    }
    assert Landing(src, p, target) == {};
    assert Graft(fs, src, p, target).fs == fs;
  }

  lemma TurnKeepsMissing(base: Fs, src: Fs, fs: Fs, es: seq<Edit>, e: Edit, p: Edit)
    requires Apart(es) && e in es && p in es && Unreachable(base, src, es, p) && StillMissing(base, fs, es, p)
    ensures var r := Apply(fs, src, e);
      if e == p then r.Failed? else r.Done? ==> StillMissing(base, r.fs, es, p)
  {
    if e != p && Apply(fs, src, e).Done? {
      if CopyKind(e.kind) {
        if IsDir(fs, Parent(e.path)) {
          InPlaceKeepsMissing(base, src, fs, es, e, p);
        } else {
          ElsewhereKeepsMissing(base, src, fs, es, e, p);
        }
      } else if e.kind == DEL_ITEM {
        DeleteKeepsMissing(base, fs, es, e, p);
      }
    }
  }

  lemma {:induction false} MissingUntilTurn(base: Fs, src: Fs, es: seq<Edit>, p: Edit, n: nat)
    requires Apart(es) && p in es && Unreachable(base, src, es, p) && n <= |es|
    ensures var r := Replay(base, src, es[..n]); r.Done? ==> p !in es[..n] && StillMissing(base, r.fs, es, p)
  {
    if n > 0 {
      var k := n - 1;
      MissingUntilTurn(base, src, es, p, k);
      ReplayTurn(base, src, es, k);
      assert es[..n] == es[..k] + [es[k]];
      var r := Replay(base, src, es[..k]);
      if r.Done? { TurnKeepsMissing(base, src, r.fs, es, es[k], p); }
    }
  }

  /** When neither the parent of a kept copy nor the directory above it is there, and no other copy can
      put something in their place, the replay fails, in every order. */
  lemma UnreachableFails(base: Fs, src: Fs, es: seq<Edit>, p: Edit)
    requires Apart(es) && p in es && Unreachable(base, src, es, p)
    ensures Replay(base, src, es).Failed?
  {
    MissingUntilTurn(base, src, es, p, |es|);
    assert es[..|es|] == es;
  }

  lemma SettingApart(base: Fs, src: Fs, mounts: set<Key>, es: seq<Edit>)
    requires Setting(base, src, mounts, es)
    ensures Apart(es)
  {
    forall e | e in es ensures e.path != [] { assert IsKept(base, src, mounts, e); }
    forall d, e | d in es && e in es && d.path <= e.path ensures d == e {
      KeptApart(base, src, mounts, es, d, e);
    }
  }

  // ------------------------------------------------------------ the order of the changes

  /** With the parents of all copied paths in the base, the order in which the trie hands out the
      changes does not matter: every order fails, or every order gives the same filesystem. */
  lemma ReplayOrderIrrelevant(base: Fs, src: Fs, es: seq<Edit>, es': seq<Edit>)
    requires Independent(es) && Independent(es') && forall e :: e in es <==> e in es'
    requires ParentsPresent(base, es)
    ensures Replay(base, src, es) == Replay(base, src, es')
    ensures Replay(base, src, es).Done? <==> forall e :: e in es ==> Placed(base, src, e)
  {
    if Replay(base, src, es).Done? { DoneMeansPlaced(base, src, es); }
    if Replay(base, src, es').Done? { DoneMeansPlaced(base, src, es'); }
    if forall e :: e in es ==> Placed(base, src, e) {
      ReplayClosedForm(base, src, es);
      ReplayClosedForm(base, src, es');
      PatchedBySet(base, src, es, es');
    }
  }

  // ------------------------------------------------------------ a changed type

  /** A replay that goes through has placed every kept change. */
  lemma {:induction false} DoneMeansPlaced(base: Fs, src: Fs, es: seq<Edit>)
    requires Independent(es) && ParentsPresent(base, es) && Replay(base, src, es).Done?
    ensures forall e :: e in es ==> Placed(base, src, e)
  {
    if es != [] {
      var n := |es| - 1;
      var before, e := es[..n], es[n];
      assert es == before + [e];
      assert Independent(before);
      DoneMeansPlaced(base, src, before);
      ReplayClosedForm(base, src, before);
      var fs := Patched(base, src, before);
      forall q | e.path <= q || q == Parent(e.path)
        ensures (q in fs <==> q in base) && (q in base ==> fs[q] == base[q])
      {
        UntouchedBelow(base, src, before, e, q);
      }
      ClashInPlace(base, fs, src, e.path);
      assert Placed(base, src, e);
    }
  }

  /** A type changed off the mounts shows as a clash of a kept change. */
  lemma ChangedTypeClashes(base: Fs, src: Fs, mounts: set<Key>, es: seq<Edit>, q: Key)
    requires Setting(base, src, mounts, es) && ParentsPresent(base, es)
    requires q in base && q in src && (OffMount(mounts, q) || Copied(es, q)) && !SameType(base[q], src[q])
    ensures exists e :: e in es && !Placed(base, src, e)
  {
    CopiedOrSame(base, src, mounts, es, q);
    CopyClashes(base, src, es, q);
  }

  lemma CopyClashes(base: Fs, src: Fs, es: seq<Edit>, q: Key)
    requires q in base && q in src && Copied(es, q) && !SameType(base[q], src[q])
    ensures exists e :: e in es && !Placed(base, src, e)
  {
    var e :| e in es && CopyKind(e.kind) && e.path <= q;
    ClashInPlace(base, base, src, e.path);
    assert !Placed(base, src, e);
  }

  lemma CopiedOrSame(base: Fs, src: Fs, mounts: set<Key>, es: seq<Edit>, q: Key)
    requires Setting(base, src, mounts, es) && ParentsPresent(base, es)
    requires q in base && q in src && (OffMount(mounts, q) || Copied(es, q)) && !SameType(base[q], src[q])
    ensures Copied(es, q)
  {
    if !Copied(es, q) {
      var e := Edit(CHANGE_ITEM, q);
      assert Unmounted(base, src, mounts, e);
      var k := KeptBelow(base, src, mounts, e);
      assert k in es;
      if k.path == q {
        ListedOnce(base, src, e, k);
      } else {
        AboveKeptIsDir(base, src, mounts, es, k, q);
        AboveKeptIsDirInOld(base, src, mounts, k, q);
      }
    }
  }

  lemma AboveKeptIsDirInOld(base: Fs, src: Fs, mounts: set<Key>, k: Edit, q: Key)
    requires WellFormed(src) && IsKept(base, src, mounts, k) && q <= k.path && q != k.path
    ensures IsDir(src, q)
  {
    BelowParent(q, k.path);
    if k.path in src { AncestorIsDir(src, q, k.path); }
    else if q != Parent(k.path) { AncestorIsDir(src, q, Parent(k.path)); }
  }

  /** The replay reproduces the old filesystem exactly when the base has the parent of every
      kept path as a directory and no entry changed its type. */
  lemma ReplayFaithfulIff(base: Fs, src: Fs, mounts: set<Key>, es: seq<Edit>)
    requires Setting(base, src, mounts, es) && NoMountInside(mounts, es)
    ensures (Replay(base, src, es).Done? && Faithful(base, src, mounts, Replay(base, src, es).fs))
      <==> ParentsPresent(base, es) && TypesKept(base, src, mounts, es)
  {
    KeptIndependent(base, src, mounts, es);
    if ParentsPresent(base, es) && TypesKept(base, src, mounts, es) {
      ReplayPreservesMeaning(base, src, mounts, es);
    } else if !ParentsPresent(base, es) {
      var p :| p in es && CopyKind(p.kind) && !IsDir(base, Parent(p.path));
      MissingParentBreaks(base, src, mounts, es, p);
    } else if Replay(base, src, es).Done? {
      DoneMeansPlaced(base, src, es);
      var q :| q in base && q in src && (OffMount(mounts, q) || Copied(es, q)) && !SameType(base[q], src[q]);
      ChangedTypeClashes(base, src, mounts, es, q);
      assert false;
    }
  }
}
