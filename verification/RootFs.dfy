/** Root filesystems as finite maps from component paths to entries, and the two
    commands the replay loop issues on them: `cp -ra src destRoot` and `RemoveAll`. */
module RootFs {
  import opened Paths
  import opened DiffSpec

  /** What one path holds. `attrs` stands for owner and mode, and for a leaf also for its times; docker
      does not list a directory for its times alone. */
  datatype Entry = Dir(attrs: string) | Leaf(attrs: string, data: string)

  type Fs = map<Key, Entry>

  datatype Outcome = Done(fs: Fs) | Failed

  /** A change whose path is split into components. */
  datatype Edit = Edit(kind: uint8, path: Key)

  predicate IsDir(fs: Fs, p: Key) { p in fs && fs[p].Dir? }

  predicate SameType(a: Entry, b: Entry) { a.Dir? <==> b.Dir? }

  /** Every entry sits in a directory. */
  ghost predicate WellFormed(fs: Fs) {
    IsDir(fs, []) && forall p :: p in fs ==> IsDir(fs, Parent(p))
  }

  /** Where `src/p[rel]` lands when `src/p` is copied as `target`. */
  function Moved(p: Key, target: Key, q: Key): Key
    requires p <= q
  {
    target + q[|p|..]
  }

  /** The positions written when `src/p` is copied as `target`. */
  function Landing(src: Fs, p: Key, target: Key): set<Key> {
    set q | q in src && p <= q :: Moved(p, target, q)
  }

  /** A directory would replace a file, or a file a directory. */
  predicate Clash(fs: Fs, src: Fs, p: Key, target: Key) {
    exists q :: q in src && p <= q && Moved(p, target, q) in fs && !SameType(src[q], fs[Moved(p, target, q)])
  }

  /** The tree `src/p` is copied as `target`, merging with the directories it meets. */
  function Graft(fs: Fs, src: Fs, p: Key, target: Key): Outcome {
    if Clash(fs, src, p, target) then Failed
    else Done(map q | q in fs.Keys + Landing(src, p, target) && (q in fs || Written(src, p, target, q)) ::
      if Written(src, p, target, q) then src[p + q[|target|..]] else fs[q])
  }

  /** The copy of `src/p` as `target` has an entry for `q`. */
  predicate Written(src: Fs, p: Key, target: Key, q: Key) {
    target <= q && p + q[|target|..] in src
  }

  /** `cp -ra src/p fs/Dir(p)`. An existing directory receives the copy under the name of
      `p`; otherwise the destination itself becomes the copy. */
  function CopyArchive(fs: Fs, src: Fs, p: Key): Outcome {
    var destRoot := Parent(p);
    if p !in src then Failed
    else if IsDir(fs, destRoot) then Graft(fs, src, p, p)
    else if IsDir(fs, Parent(destRoot)) then Graft(fs, src, p, destRoot)
    else Failed
  }

  /** `os.RemoveAll`: no error when there is nothing to remove. */
  function RemoveAll(fs: Fs, p: Key): Fs {
    map q | q in fs && !(p <= q) :: fs[q]
  }

  predicate CopyKind(kind: uint8) { kind == ADD_ITEM || kind == CHANGE_ITEM }

  /** One turn of the replay loop. */
  function Apply(fs: Fs, src: Fs, e: Edit): Outcome {
    if CopyKind(e.kind) then CopyArchive(fs, src, e.path)
    else if e.kind == DEL_ITEM then Done(RemoveAll(fs, e.path))
    else Done(fs)
  }

  /** The replay loop over a list of changes, in list order; it stops at the first failure. */
  function Replay(fs: Fs, src: Fs, es: seq<Edit>): Outcome {
    if es == [] then Done(fs)
    else
      match Replay(fs, src, es[..|es| - 1])
      case Failed => Failed
      case Done(fs') => Apply(fs', src, es[|es| - 1])
  }

  lemma ReplayTurn(fs: Fs, src: Fs, es: seq<Edit>, n: nat)
    requires n < |es|
    ensures Replay(fs, src, es[..n + 1]) ==
      match Replay(fs, src, es[..n]) {
        case Failed => Failed
        case Done(fs') => Apply(fs', src, es[n])
      }
  {
    assert es[..n + 1][..n] == es[..n];
  }

  // ------------------------------------------------------------ what one turn means

  /** Where `cp -ra src/p Dir(p)` puts the copy: in the parent directory, or in its place if it is missing. */
  function TargetOf(fs: Fs, p: Key): Key { if IsDir(fs, Parent(p)) then p else Parent(p) }

  /** What `src/p` holds and what `fs/t` holds are of one type wherever both have something. */
  ghost predicate TypesMeet(fs: Fs, src: Fs, p: Key, t: Key) {
    forall rel: Key :: p + rel in src && t + rel in fs ==> (src[p + rel].Dir? <==> fs[t + rel].Dir?)
  }

  /** A copy goes through exactly when there is something to copy, the directory that receives it exists,
      and no directory meets a file; then the entries of the source win at and below the target. */
  lemma CopyMeaning(fs: Fs, src: Fs, e: Edit)
    requires e.kind == 0 || e.kind == 1
    ensures var t, r := TargetOf(fs, e.path), Apply(fs, src, e);
      && (r.Done? <==> e.path in src && IsDir(fs, Parent(t)) && TypesMeet(fs, src, e.path, t))
      && (r.Done? ==> forall q :: q in r.fs <==> q in fs || (t <= q && e.path + q[|t|..] in src))
      && (r.Done? ==> forall q :: q in r.fs ==>
            r.fs[q] == if t <= q && e.path + q[|t|..] in src then src[e.path + q[|t|..]] else fs[q])
  {
    var p, t := e.path, TargetOf(fs, e.path);
    ClashMeaning(fs, src, p, t);
    if !Clash(fs, src, p, t) { GraftMeaning(fs, src, p, t); }
  }

  lemma ClashMeaning(fs: Fs, src: Fs, p: Key, t: Key)
    ensures Clash(fs, src, p, t) <==> !TypesMeet(fs, src, p, t)
  {
    if Clash(fs, src, p, t) {
      var q :| q in src && p <= q && Moved(p, t, q) in fs && !SameType(src[q], fs[Moved(p, t, q)]);
      var rel := q[|p|..];
      assert p + rel == q && t + rel == Moved(p, t, q);
    }
    forall rel: Key | p + rel in src && t + rel in fs && !SameType(src[p + rel], fs[t + rel])
      ensures Clash(fs, src, p, t)
    {
      assert p <= p + rel && Moved(p, t, p + rel) == t + rel;
    }
  }

  lemma GraftMeaning(fs: Fs, src: Fs, p: Key, t: Key)
    requires !Clash(fs, src, p, t)
    ensures var g := Graft(fs, src, p, t);
      && g.Done?
      && (forall q :: q in g.fs <==> q in fs || (t <= q && p + q[|t|..] in src))
      && (forall q :: q in g.fs ==> g.fs[q] == if t <= q && p + q[|t|..] in src then src[p + q[|t|..]] else fs[q])
  {
    forall q | Written(src, p, t, q) ensures q in Landing(src, p, t) {
      var from := p + q[|t|..];
      assert from in src && p <= from && Moved(p, t, from) == q;
    }
  }

  /** A deletion always goes through and removes the path and everything below it; other codes do nothing. */
  lemma DeleteMeaning(fs: Fs, src: Fs, e: Edit)
    requires e.kind >= 2
    ensures var r := Apply(fs, src, e);
      && r.Done?
      && (forall q :: q in r.fs <==> q in fs && !(e.kind == 2 && e.path <= q))
      && (forall q :: q in r.fs ==> r.fs[q] == fs[q])
  {
  }

  // ------------------------------------------------------------ closed form

  /** No edit lies at, above or below another one. */
  ghost predicate Independent(es: seq<Edit>) {
    && (forall i :: 0 <= i < |es| ==> es[i].path != [])
    && forall i, j :: 0 <= i < |es| && 0 <= j < |es| && i != j ==> !(es[i].path <= es[j].path)
  }

  ghost predicate Copied(es: seq<Edit>, q: Key) {
    exists e :: e in es && CopyKind(e.kind) && e.path <= q
  }

  ghost predicate Deleted(es: seq<Edit>, q: Key) {
    exists e :: e in es && e.kind == DEL_ITEM && e.path <= q
  }

  /** The filesystem the edits ask for: the source's entries where something is copied,
      nothing where something is deleted, the base's entries elsewhere. */
  ghost function Patched(base: Fs, src: Fs, es: seq<Edit>): Fs {
    map q | q in base.Keys + src.Keys && (if q in src && Copied(es, q) then true else q in base && !Deleted(es, q)) ::
      if q in src && Copied(es, q) then src[q] else base[q]
  }

  /** A copy that finds its source, its parent directory, and only entries of its own type. */
  ghost predicate Placed(base: Fs, src: Fs, e: Edit) {
    CopyKind(e.kind) ==>
      && e.path in src && IsDir(base, Parent(e.path))
      && !Clash(base, src, e.path, e.path)
  }

  lemma MovedInPlace(p: Key, q: Key)
    requires p <= q
    ensures Moved(p, p, q) == q && p + q[|p|..] == q
  {
  }

  lemma Comparable(a: Key, b: Key, q: Key)
    requires a <= q && b <= q
    ensures a <= b || b <= a
  {
    assert a == q[..|a|] && b == q[..|b|];
    if |a| <= |b| { assert a == b[..|a|]; } else { assert b == a[..|b|]; }
  }

  /** A path is at or below at most one of the independent edits. */
  lemma OnlyOneAbove(es: seq<Edit>, i: int, j: int, q: Key)
    requires Independent(es) && 0 <= i < |es| && 0 <= j < |es|
    ensures es[i].path <= q && es[j].path <= q ==> i == j
  {
    if es[i].path <= q && es[j].path <= q { Comparable(es[i].path, es[j].path, q); }
  }

  /** Entries that no edit of `es` reaches are those of the base. */
  lemma PatchedElsewhere(base: Fs, src: Fs, es: seq<Edit>, q: Key)
    requires forall i :: 0 <= i < |es| ==> !(es[i].path <= q)
    ensures q in Patched(base, src, es) <==> q in base
    ensures q in base ==> Patched(base, src, es)[q] == base[q]
  {
    assert !Copied(es, q) && !Deleted(es, q);
  }

  /** At and below a further edit, the patched filesystem is still the base. */
  lemma UntouchedBelow(base: Fs, src: Fs, es: seq<Edit>, e: Edit, q: Key)
    requires Independent(es + [e]) && (e.path <= q || q == Parent(e.path))
    ensures var fs := Patched(base, src, es);
      (q in fs <==> q in base) && (q in base ==> fs[q] == base[q])
  {
    var all := es + [e];
    assert all[|es|] == e && forall i :: 0 <= i < |es| ==> all[i] == es[i];
    forall i | 0 <= i < |es| ensures !(es[i].path <= q) {
      OnlyOneAbove(all, i, |es|, q);
      assert !(all[i].path <= all[|es|].path);
    }
    PatchedElsewhere(base, src, es, q);
  }

  lemma PatchedStep(base: Fs, src: Fs, es: seq<Edit>, e: Edit)
    requires Independent(es + [e])
    requires Placed(base, src, e)
    ensures Apply(Patched(base, src, es), src, e) == Done(Patched(base, src, es + [e]))
  {
    if CopyKind(e.kind) {
      PatchedCopy(base, src, es, e);
    } else {
      CoverStep(es, e);
      var fs, next := Patched(base, src, es), Patched(base, src, es + [e]);
      var after := if e.kind == DEL_ITEM then RemoveAll(fs, e.path) else fs;
      forall q
        ensures q in after <==> q in next
        ensures q in after ==> after[q] == next[q]
      {
        assert Copied(es + [e], q) <==> Copied(es, q);
        assert Deleted(es + [e], q) <==> Deleted(es, q) || (e.kind == DEL_ITEM && e.path <= q);
        if e.path <= q { UntouchedBelow(base, src, es, e, q); NotCopiedBelow(es, e, q); }
      }
      assert after == next;
    }
  }

  lemma NotCopiedBelow(es: seq<Edit>, e: Edit, q: Key)
    requires Independent(es + [e]) && e.path <= q
    ensures !Copied(es, q) && !Deleted(es, q)
  {
    var all := es + [e];
    forall i | 0 <= i < |es| ensures !(es[i].path <= q) {
      assert all[i] == es[i] && all[|es|] == e;
      OnlyOneAbove(all, i, |es|, q);
    }
  }

  /** One more copy: at and below its path the source's entries win. */
  lemma PatchedEntry(base: Fs, src: Fs, es: seq<Edit>, e: Edit, q: Key)
    requires Independent(es + [e]) && CopyKind(e.kind)
    ensures var fs, next := Patched(base, src, es), Patched(base, src, es + [e]);
      && (q in next <==> q in fs || (q in src && e.path <= q))
      && (q in next ==> next[q] == if q in src && e.path <= q then src[q] else fs[q])
  {
    CoverStep(es, e);
    assert Copied(es + [e], q) <==> Copied(es, q) || e.path <= q;
    assert Deleted(es + [e], q) <==> Deleted(es, q);
  }

  /** A further copy finds its parent directory, and no clash, as it would in the base. */
  lemma StillPlaced(base: Fs, src: Fs, es: seq<Edit>, e: Edit)
    requires Independent(es + [e]) && CopyKind(e.kind) && Placed(base, src, e)
    ensures var fs := Patched(base, src, es); IsDir(fs, Parent(e.path)) && !Clash(fs, src, e.path, e.path)
  {
    var fs := Patched(base, src, es);
    forall q | e.path <= q || q == Parent(e.path)
      ensures (q in fs <==> q in base) && (q in base ==> fs[q] == base[q])
    {
      UntouchedBelow(base, src, es, e, q);
    }
    ClashInPlace(base, fs, src, e.path);
  }

  lemma PatchedCopy(base: Fs, src: Fs, es: seq<Edit>, e: Edit)
    requires Independent(es + [e]) && CopyKind(e.kind)
    requires Placed(base, src, e)
    ensures CopyArchive(Patched(base, src, es), src, e.path) == Done(Patched(base, src, es + [e]))
  {
    var next, fs := Patched(base, src, es + [e]), Patched(base, src, es);
    StillPlaced(base, src, es, e);
    GraftInPlace(fs, src, e.path);
    var g := Graft(fs, src, e.path, e.path).fs;
    forall q ensures (q in g <==> q in next) && (q in g ==> g[q] == next[q]) {
      PatchedEntry(base, src, es, e, q);
    }
    SameEntries(g, next);
  }

  lemma SameEntries(a: Fs, b: Fs)
    requires forall q :: (q in a <==> q in b) && (q in a ==> a[q] == b[q])
    ensures a == b
  {
  }

  lemma CoverStep(es: seq<Edit>, e: Edit)
    ensures forall q :: Copied(es + [e], q) <==> Copied(es, q) || (CopyKind(e.kind) && e.path <= q)
    ensures forall q :: Deleted(es + [e], q) <==> Deleted(es, q) || (e.kind == DEL_ITEM && e.path <= q)
  {
    assert e in es + [e];
  }

  /** A copy in place clashes with what lies at and below it only. */
  lemma ClashInPlace(base: Fs, fs: Fs, src: Fs, p: Key)
    requires forall q :: p <= q ==> (q in fs <==> q in base) && (q in base ==> fs[q] == base[q])
    ensures Clash(fs, src, p, p) == Clash(base, src, p, p)
      == exists q :: q in src && p <= q && q in base && !SameType(src[q], base[q])
  {
    forall q | p <= q ensures Moved(p, p, q) == q { MovedInPlace(p, q); }
  }

  /** Copying in place: at and below `p` the source's entries win, the rest stays. */
  lemma GraftInPlace(fs: Fs, src: Fs, p: Key)
    requires !Clash(fs, src, p, p)
    ensures var g := Graft(fs, src, p, p);
      && g.Done?
      && (forall q :: q in g.fs <==> q in fs || (q in src && p <= q))
      && (forall q :: q in g.fs ==> g.fs[q] == if q in src && p <= q then src[q] else fs[q])
  {
    forall q | p <= q ensures Moved(p, p, q) == q && p + q[|p|..] == q {
      MovedInPlace(p, q);
    }
    forall q ensures q in Landing(src, p, p) <==> q in src && p <= q {
      if q in src && p <= q { assert Moved(p, p, q) in Landing(src, p, p); }
    }
  }

  /** Independent, well placed edits can be replayed, in any order, and give the closed form. */
  lemma {:induction false} ReplayClosedForm(base: Fs, src: Fs, es: seq<Edit>)
    requires Independent(es)
    requires forall e :: e in es ==> Placed(base, src, e)
    ensures Replay(base, src, es) == Done(Patched(base, src, es))
  {
    if es == [] {
      assert Patched(base, src, es) == base;
    } else {
      var n := |es| - 1;
      assert es == es[..n] + [es[n]];
      assert Independent(es[..n]);
      ReplayClosedForm(base, src, es[..n]);
      PatchedStep(base, src, es[..n], es[n]);
    }
  }

  /** The closed form only depends on which edits there are. */
  lemma PatchedBySet(base: Fs, src: Fs, es: seq<Edit>, es': seq<Edit>)
    requires forall e :: e in es <==> e in es'
    ensures Patched(base, src, es) == Patched(base, src, es')
  {
    forall q ensures Copied(es, q) == Copied(es', q) && Deleted(es, q) == Deleted(es', q) {}
  }
}
