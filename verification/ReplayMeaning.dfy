/** What the device mapper driver's filter-and-replay is for: turning the new root
    filesystem into the container's own. When that works, and when it does not. */
module ReplayMeaning {
  import opened Paths
  import opened Lists
  import opened DiffSpec
  import opened RootFs

  /** The change list of the storage driver: how the container's filesystem `src` differs from `base`. Additions are
      listed entry by entry, deletions topmost only, and a directory is listed as changed
      when something below it differs. The root itself is never listed. Docker's codes are 0 for a
      changed, 1 for an added and 2 for a deleted path. */
  ghost predicate Listed(base: Fs, src: Fs, e: Edit) {
    var q := e.path;
    || (e.kind == 1 && q in src && q !in base)
    || (e.kind == 2 && q in base && q !in src && IsDir(src, Parent(q)))
    || (e.kind == 0 && q != [] && q in base && q in src
        && (base[q] != src[q] || exists d :: q <= d && d != q && Differs(base, src, d)))
  }

  predicate Differs(base: Fs, src: Fs, q: Key) {
    (q in base) != (q in src) || (q in base && base[q] != src[q])
  }

  /** The listed changes that are not themselves mount points. */
  ghost predicate Unmounted(base: Fs, src: Fs, mounts: set<Key>, e: Edit) {
    Listed(base, src, e) && e.path !in mounts
  }

  /** The changes that survive: unmounted ones with no unmounted one strictly below. */
  ghost predicate IsKept(base: Fs, src: Fs, mounts: set<Key>, e: Edit) {
    && Unmounted(base, src, mounts, e)
    && forall d :: Unmounted(base, src, mounts, d) && e.path <= d.path ==> d.path == e.path
  }

  ghost predicate OffMount(mounts: set<Key>, q: Key) { forall m :: m in mounts ==> !(m <= q) }

  ghost predicate NothingListedBelowMounts(base: Fs, src: Fs, mounts: set<Key>) {
    forall e, m :: Listed(base, src, e) && m in mounts && m <= e.path ==> m == e.path
  }

  /** The situation of one replay: `es` enumerates the surviving changes in some order. */
  ghost predicate Setting(base: Fs, src: Fs, mounts: set<Key>, es: seq<Edit>) {
    && WellFormed(base) && WellFormed(src)
    && NothingListedBelowMounts(base, src, mounts)
    && Distinct(es) && forall e :: e in es <==> IsKept(base, src, mounts, e)
  }

  /** Outside mounts the result is the old filesystem; the attributes of directories above
      a listed change, and of the root, are not compared. */
  ghost predicate Faithful(base: Fs, src: Fs, mounts: set<Key>, r: Fs) {
    forall q :: OffMount(mounts, q) ==>
      && (q in r <==> q in src)
      && (q in r && q in src ==> SameEntry(base, src, mounts, r, q))
  }

  ghost predicate SameEntry(base: Fs, src: Fs, mounts: set<Key>, r: Fs, q: Key)
    requires q in r && q in src
  {
    SameType(r[q], src[q]) && (r[q] == src[q] || q == [] || AboveListed(base, src, mounts, q))
  }

  ghost predicate AboveListed(base: Fs, src: Fs, mounts: set<Key>, q: Key) {
    exists e :: Unmounted(base, src, mounts, e) && q <= e.path && q != e.path
  }

  /** What a caller can check on the base before the replay. */
  ghost predicate ParentsPresent(base: Fs, es: seq<Edit>) {
    forall e :: e in es && CopyKind(e.kind) ==> IsDir(base, Parent(e.path))
  }

  ghost predicate TypesKept(base: Fs, src: Fs, mounts: set<Key>, es: seq<Edit>) {
    forall q :: q in base && q in src && (OffMount(mounts, q) || Copied(es, q)) ==> SameType(base[q], src[q])
  }

  // ------------------------------------------------------------ paths

  lemma {:induction false} AncestorIsDir(fs: Fs, p: Key, q: Key)
    requires WellFormed(fs) && q in fs && p <= q && p != q
    ensures IsDir(fs, p)
    decreases |q|
  {
    if Parent(q) != p {
      assert p <= Parent(q);
      AncestorIsDir(fs, p, Parent(q));
    }
  }

  lemma BelowParent(p: Key, q: Key)
    ensures p <= q && p != q <==> q != [] && p <= Parent(q)
  {
    if q != [] && p <= Parent(q) { assert |p| < |q|; assert p == q[..|p|]; }
  }

  lemma PrefixTrans(a: Key, b: Key, q: Key)
    ensures a <= b && b <= q ==> a <= q
  {
  }

  lemma OffMountAbove(mounts: set<Key>, p: Key, q: Key)
    requires OffMount(mounts, q) && p <= q
    ensures OffMount(mounts, p)
  {
    forall m | m in mounts ensures !(m <= p) {
      PrefixTrans(m, p, q);
    }
  }

  // ------------------------------------------------------------ the kept edits

  /** One path, one listed change. */
  lemma ListedOnce(base: Fs, src: Fs, d: Edit, e: Edit)
    requires Listed(base, src, d) && Listed(base, src, e) && d.path == e.path
    ensures d == e
  {
  }

  lemma DiffersBelow(base: Fs, src: Fs, e: Edit) returns (d: Key)
    requires Listed(base, src, e)
    ensures e.path <= d && Differs(base, src, d)
  {
    d := e.path;
    if !Differs(base, src, d) {
      d :| e.path <= d && d != e.path && Differs(base, src, d);
    }
  }

  /** Everything above a listed change is listed: the lists are parent-closed. */
  lemma ListedAbove(base: Fs, src: Fs, e: Edit, p: Key)
    requires WellFormed(base) && WellFormed(src) && Listed(base, src, e)
    requires p != [] && p <= e.path && p != e.path
    ensures Listed(base, src, Edit(if p in base then CHANGE_ITEM else ADD_ITEM, p))
  {
    var d := DiffersBelow(base, src, e);
    PrefixTrans(p, e.path, d);
    assert p in src by {
      if e.path in src {
        AncestorIsDir(src, p, e.path);
      } else {
        BelowParent(p, e.path);
        if p != Parent(e.path) { AncestorIsDir(src, p, Parent(e.path)); }
      }
    }
    assert p in base ==> p <= d && d != p;
  }

  /** The paths at or below `p`. */
  function Below(base: Fs, src: Fs, p: Key): set<Key> {
    set q | q in base.Keys + src.Keys && p <= q
  }

  lemma BelowShrinks(base: Fs, src: Fs, p: Key, d: Key)
    requires p in base.Keys + src.Keys && p <= d && p != d
    ensures Below(base, src, d) < Below(base, src, p)
  {
    forall q ensures q in Below(base, src, d) ==> q in Below(base, src, p) { PrefixTrans(p, d, q); }
    assert p in Below(base, src, p) && p !in Below(base, src, d);
  }

  /** A kept change lies at or below every unmounted one. */
  lemma KeptBelow(base: Fs, src: Fs, mounts: set<Key>, e: Edit) returns (k: Edit)
    requires Unmounted(base, src, mounts, e)
    ensures IsKept(base, src, mounts, k) && e.path <= k.path
    decreases Below(base, src, e.path)
  {
    k := e;
    if !IsKept(base, src, mounts, e) {
      var d :| Unmounted(base, src, mounts, d) && e.path <= d.path && d.path != e.path;
      BelowShrinks(base, src, e.path, d.path);
      k := KeptBelow(base, src, mounts, d);
      PrefixTrans(e.path, d.path, k.path);
    }
  }

  lemma KeptOffMount(base: Fs, src: Fs, mounts: set<Key>, e: Edit)
    requires NothingListedBelowMounts(base, src, mounts) && Unmounted(base, src, mounts, e)
    ensures OffMount(mounts, e.path)
  {
  }

  lemma KeptIndependent(base: Fs, src: Fs, mounts: set<Key>, es: seq<Edit>)
    requires Setting(base, src, mounts, es)
    ensures Independent(es)
  {
    forall i | 0 <= i < |es| ensures es[i].path != [] { assert es[i] in es; }
    forall i, j | 0 <= i < |es| && 0 <= j < |es| && i != j ensures !(es[i].path <= es[j].path) {
      assert es[i] in es && es[j] in es && es[i] != es[j];
      if es[i].path <= es[j].path { KeptOnce(base, src, mounts, es[i], es[j]); }
    }
  }

  lemma KeptOnce(base: Fs, src: Fs, mounts: set<Key>, d: Edit, e: Edit)
    requires IsKept(base, src, mounts, d) && IsKept(base, src, mounts, e) && d.path <= e.path
    ensures d == e
  {
    ListedOnce(base, src, d, e);
  }

  // ------------------------------------------------------------ the condition suffices

  lemma KeptPlaced(base: Fs, src: Fs, mounts: set<Key>, es: seq<Edit>, e: Edit)
    requires Setting(base, src, mounts, es)
    requires ParentsPresent(base, es) && TypesKept(base, src, mounts, es)
    requires e in es
    ensures Placed(base, src, e)
  {
    assert IsKept(base, src, mounts, e);
    if CopyKind(e.kind) {
      forall q | q in src && e.path <= q && q in base ensures SameType(src[q], base[q]) {
        assert Copied(es, q);
      }
      ClashInPlace(base, base, src, e.path);
    }
  }

  /** Everything above a kept change is a directory of the base. */
  lemma AboveKeptIsDir(base: Fs, src: Fs, mounts: set<Key>, es: seq<Edit>, k: Edit, q: Key)
    requires Setting(base, src, mounts, es) && ParentsPresent(base, es)
    requires k in es && q <= k.path && q != k.path
    ensures IsDir(base, q)
  {
    assert IsKept(base, src, mounts, k);
    BelowParent(q, k.path);
    assert IsDir(base, Parent(k.path));
    if q != Parent(k.path) { AncestorIsDir(base, q, Parent(k.path)); }
  }

  lemma StaysAboveGone(src: Fs, p: Key, q: Key)
    requires WellFormed(src) && p !in src && q in src
    ensures !(p <= q)
  {
    if p <= q { AncestorIsDir(src, p, q); }
  }

  lemma OldEntryNotDeleted(base: Fs, src: Fs, mounts: set<Key>, es: seq<Edit>, q: Key)
    requires Setting(base, src, mounts, es) && q in src
    ensures !Deleted(es, q)
  {
    forall e | e in es && e.kind == DEL_ITEM ensures !(e.path <= q) {
      DeletesNothingOld(base, src, mounts, e, q);
    }
  }

  lemma DeletesNothingOld(base: Fs, src: Fs, mounts: set<Key>, e: Edit, q: Key)
    requires WellFormed(src) && IsKept(base, src, mounts, e) && e.kind == DEL_ITEM && q in src
    ensures !(e.path <= q)
  {
    assert Listed(base, src, e);
    StaysAboveGone(src, e.path, q);
  }

  /** An entry of the old filesystem that nothing copies is in the base already. */
  lemma OldEntryStays(base: Fs, src: Fs, mounts: set<Key>, es: seq<Edit>, q: Key)
    requires Setting(base, src, mounts, es) && ParentsPresent(base, es)
    requires OffMount(mounts, q) && q in src && !Copied(es, q)
    ensures q in base
    ensures base[q] == src[q] || q == [] || AboveListed(base, src, mounts, q)
  {
    if q != [] && Differs(base, src, q) {
      var e := Edit(if q in base then CHANGE_ITEM else ADD_ITEM, q);
      assert Unmounted(base, src, mounts, e);
      var k := KeptBelow(base, src, mounts, e);
      assert k in es && Unmounted(base, src, mounts, k);
      assert k.path != q by { if k.path == q { ListedOnce(base, src, e, k); } }
      AboveKeptIsDir(base, src, mounts, es, k, q);
    }
  }

  /** Nothing is listed below a topmost missing entry. */
  lemma NothingBelowGone(base: Fs, src: Fs, d: Edit, q: Key)
    requires WellFormed(src) && Listed(base, src, d) && q !in src && q <= d.path
    ensures d.path == q
  {
    if d.path != q {
      BelowParent(q, d.path);
      if d.path in src { AncestorIsDir(src, q, d.path); }
      else if q != Parent(d.path) { AncestorIsDir(src, q, Parent(d.path)); }
    }
  }

  lemma TopmostGoes(base: Fs, src: Fs, mounts: set<Key>, es: seq<Edit>, q: Key)
    requires Setting(base, src, mounts, es) && OffMount(mounts, q)
    requires q !in src && q in base && IsDir(src, Parent(q))
    ensures Deleted(es, q)
  {
    GoneIsKept(base, src, mounts, q);
    assert Edit(DEL_ITEM, q) in es;
  }

  lemma GoneIsKept(base: Fs, src: Fs, mounts: set<Key>, q: Key)
    requires WellFormed(src) && OffMount(mounts, q)
    requires q !in src && q in base && IsDir(src, Parent(q))
    ensures IsKept(base, src, mounts, Edit(DEL_ITEM, q))
  {
    assert q !in mounts;
    forall d | Unmounted(base, src, mounts, d) && q <= d.path ensures d.path == q {
      NothingBelowGone(base, src, d, q);
    }
  }

  /** An entry that the old filesystem does not have is deleted. */
  lemma {:induction false} NewEntryGoes(base: Fs, src: Fs, mounts: set<Key>, es: seq<Edit>, q: Key)
    requires Setting(base, src, mounts, es) && TypesKept(base, src, mounts, es)
    requires OffMount(mounts, q) && q !in src && q in base
    ensures Deleted(es, q)
    decreases |q|
  {
    var p := Parent(q);
    assert q != [] && IsDir(base, p);
    OffMountAbove(mounts, p, q);
    if p in src {
      assert SameType(base[p], src[p]);
      TopmostGoes(base, src, mounts, es, q);
    } else {
      NewEntryGoes(base, src, mounts, es, p);
      DeletedBelow(es, p, q);
    }
  }

  lemma DeletedBelow(es: seq<Edit>, p: Key, q: Key)
    requires Deleted(es, p) && p <= q
    ensures Deleted(es, q)
  {
    var e :| e in es && e.kind == DEL_ITEM && e.path <= p;
    PrefixTrans(e.path, p, q);
  }

  /** With every kept path's parent in the base and no type changed, any order of the kept
      changes turns the base into the old filesystem. */
  lemma ReplayPreservesMeaning(base: Fs, src: Fs, mounts: set<Key>, es: seq<Edit>)
    requires Setting(base, src, mounts, es)
    requires ParentsPresent(base, es) && TypesKept(base, src, mounts, es)
    ensures Replay(base, src, es) == Done(Patched(base, src, es))
    ensures Faithful(base, src, mounts, Patched(base, src, es))
  {
    KeptIndependent(base, src, mounts, es);
    forall e | e in es ensures Placed(base, src, e) { KeptPlaced(base, src, mounts, es, e); }
    ReplayClosedForm(base, src, es);
    var r := Patched(base, src, es);
    forall q | OffMount(mounts, q)
      ensures q in r <==> q in src
      ensures q in r && q in src ==> SameEntry(base, src, mounts, r, q)
    {
      if q in src { OldEntryNotDeleted(base, src, mounts, es, q); }
      if q in src && !Copied(es, q) { OldEntryStays(base, src, mounts, es, q); }
      if q !in src && q in base { NewEntryGoes(base, src, mounts, es, q); }
    }
  }
}
