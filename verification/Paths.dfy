/** Slash-separated paths: the parts of Go's `strings` and `path/filepath` the
    program relies on, as total functions on strings, and the facts that let the
    rest of the model speak about sequences of components instead. */
module Paths {

  predicate SlashFree(s: string) { '/' !in s }

  /** A component that `filepath.Clean` keeps: not empty, not "." and not "..". */
  predicate Proper(c: string) {
    c != "" && c != "." && c != ".." && SlashFree(c)
  }

  predicate AllProper(cs: seq<string>) { forall i :: 0 <= i < |cs| ==> Proper(cs[i]) }

  predicate HasPrefix(s: string, prefix: string) { prefix <= s }

  predicate HasSuffix(s: string, suffix: string) {
    |suffix| <= |s| && s[|s| - |suffix|..] == suffix
  }

  function TrimPrefix(s: string, prefix: string): string {
    if HasPrefix(s, prefix) then s[|prefix|..] else s
  }

  function TrimSuffix(s: string, suffix: string): string {
    if HasSuffix(s, suffix) then s[..|s| - |suffix|] else s
  }

  /** `strings.Split(s, "/")`: never empty, and no part holds a slash. */
  function Split(s: string): (parts: seq<string>)
    ensures |parts| >= 1
    ensures forall i :: 0 <= i < |parts| ==> SlashFree(parts[i])
  {
    if s == "" then [""]
    else
      var rest := Split(s[1..]);
      if s[0] == '/' then [""] + rest else [[s[0]] + rest[0]] + rest[1..]
  }

  /** `strings.Join(parts, "/")` for a list that is not empty. */
  function JoinParts(parts: seq<string>): string
    requires |parts| >= 1
  {
    if |parts| == 1 then parts[0] else parts[0] + "/" + JoinParts(parts[1..])
  }

  /** `Split` of a string with one more character in front, given the parts of the rest. */
  function Prepend(c: char, parts: seq<string>): seq<string>
    requires |parts| >= 1
  {
    if c == '/' then [""] + parts else [[c] + parts[0]] + parts[1..]
  }

  lemma SplitCons(c: char, s: string)
    ensures Split([c] + s) == Prepend(c, Split(s))
  {
    assert ([c] + s)[1..] == s;
  }

  lemma PrependAppend(c: char, parts: seq<string>, more: seq<string>)
    requires |parts| >= 1
    ensures Prepend(c, parts + more) == Prepend(c, parts) + more
  {
  }

  lemma {:induction false} SplitAtSlash(a: string, b: string)
    ensures Split(a + "/" + b) == Split(a) + Split(b)
  {
    if a == "" {
      assert a + "/" + b == ['/'] + b;
      SplitCons('/', b);
    } else {
      var c, t := a[0], a[1..];
      SplitAtSlash(t, b);
      assert a == [c] + t && a + "/" + b == [c] + (t + "/" + b);
      SplitCons(c, t);
      SplitCons(c, t + "/" + b);
      PrependAppend(c, Split(t), Split(b));
    }
  }

  lemma {:induction false} SplitSlashFree(s: string)
    requires SlashFree(s)
    ensures Split(s) == [s]
  {
    if s != "" {
      SplitSlashFree(s[1..]);
      assert [s[0]] + s[1..] == s;
    }
  }

  /** Splitting undoes joining ... */
  lemma {:induction false} SplitOfJoin(parts: seq<string>)
    requires |parts| >= 1
    requires forall i :: 0 <= i < |parts| ==> SlashFree(parts[i])
    ensures Split(JoinParts(parts)) == parts
  {
    SplitSlashFree(parts[0]);
    if |parts| > 1 {
      SplitOfJoin(parts[1..]);
      SplitAtSlash(parts[0], JoinParts(parts[1..]));
    }
  }

  /** ... and joining undoes splitting. */
  lemma {:induction false} JoinOfSplit(s: string)
    ensures JoinParts(Split(s)) == s
  {
    if s != "" {
      JoinOfSplit(s[1..]);
      var rest := Split(s[1..]);
      if s[0] == '/' {
        assert Split(s)[1..] == rest;
        assert s == "/" + s[1..];
      } else {
        assert Split(s)[1..] == rest[1..];
        assert s == [s[0]] + s[1..];
      }
    }
  }

  /** The components the trie walks for a path: `Split(TrimPrefix(path, "/"), "/")`. */
  function Items(path: string): (items: seq<string>)
    ensures |items| >= 1
    ensures forall i :: 0 <= i < |items| ==> SlashFree(items[i])
  {
    Split(TrimPrefix(path, "/"))
  }

  /** The absolute path whose components are `cs`. */
  function Render(cs: seq<string>): string {
    if cs == [] then "/" else "/" + JoinParts(cs)
  }

  /** A clean absolute path other than "/". */
  predicate Canonical(path: string) {
    HasPrefix(path, "/") && AllProper(Items(path))
  }

  /** Rendering the components of a canonical path gives the path back. */
  lemma RenderItems(path: string)
    requires HasPrefix(path, "/")
    ensures Render(Items(path)) == path
  {
    JoinOfSplit(TrimPrefix(path, "/"));
  }

  lemma ItemsRender(cs: seq<string>)
    requires cs != [] && forall i :: 0 <= i < |cs| ==> SlashFree(cs[i])
    ensures Items(Render(cs)) == cs
    ensures AllProper(cs) ==> Canonical(Render(cs))
  {
    SplitOfJoin(cs);
    assert TrimPrefix(Render(cs), "/") == JoinParts(cs);
  }

  // ------------------------------------------------------------ filepath.Clean

  /** One component met by `filepath.Clean` with `stack` already produced. */
  function Push(rooted: bool, stack: seq<string>, c: string): seq<string> {
    if c == "" || c == "." then stack
    else if c != ".." then stack + [c]
    else if stack != [] && stack[|stack| - 1] != ".." then stack[..|stack| - 1]
    else if rooted then stack
    else stack + [".."]
  }

  function PushAll(rooted: bool, stack: seq<string>, parts: seq<string>): seq<string>
    decreases |parts|
  {
    if parts == [] then stack else PushAll(rooted, Push(rooted, stack, parts[0]), parts[1..])
  }

  /** `filepath.Clean` on Unix. */
  function Clean(path: string): string {
    var rooted := HasPrefix(path, "/");
    var stack := PushAll(rooted, [], Split(path));
    if rooted then Render(stack) else if stack == [] then "." else JoinParts(stack)
  }

  /** `filepath.Join`: leading empty elements are dropped, the rest is cleaned. */
  function Join(elems: seq<string>): string {
    if elems == [] then ""
    else if elems[0] == "" then Join(elems[1..])
    else Clean(JoinParts(elems))
  }

  /** `filepath.Dir` of a clean absolute path. */
  function Parent<T>(cs: seq<T>): seq<T> {
    if cs == [] then [] else cs[..|cs| - 1]
  }

  lemma {:induction false} PushAllAppend(rooted: bool, stack: seq<string>, a: seq<string>, b: seq<string>)
    ensures PushAll(rooted, stack, a + b) == PushAll(rooted, PushAll(rooted, stack, a), b)
    decreases |a|
  {
    if a == [] {
      assert a + b == b;
    } else {
      assert (a + b)[1..] == a[1..] + b;
      PushAllAppend(rooted, Push(rooted, stack, a[0]), a[1..], b);
    }
  }

  /** What a stack built by cleaning looks like: ".." only at the front, and not at all when rooted. */
  predicate Stacked(rooted: bool, stack: seq<string>) {
    && (forall i :: 0 <= i < |stack| ==> SlashFree(stack[i]) && stack[i] != "" && stack[i] != ".")
    && (forall i :: 0 <= i < |stack| && stack[i] == ".." ==> !rooted && (i == 0 || stack[i - 1] == ".."))
  }

  lemma {:induction false} PushAllStacked(rooted: bool, stack: seq<string>, parts: seq<string>)
    requires Stacked(rooted, stack)
    requires forall i :: 0 <= i < |parts| ==> SlashFree(parts[i])
    ensures Stacked(rooted, PushAll(rooted, stack, parts))
    decreases |parts|
  {
    if parts != [] {
      PushAllStacked(rooted, Push(rooted, stack, parts[0]), parts[1..]);
    }
  }

  /** Cleaning a clean stack again changes nothing. */
  lemma {:induction false} PushAllFixed(rooted: bool, done: seq<string>, rest: seq<string>)
    requires Stacked(rooted, done + rest)
    ensures PushAll(rooted, done, rest) == done + rest
    decreases |rest|
  {
    if rest != [] {
      var c := rest[0];
      assert (done + rest)[|done|] == c;
      assert done != [] ==> (done + rest)[|done| - 1] == done[|done| - 1];
      assert Push(rooted, done, c) == done + [c];
      assert (done + [c]) + rest[1..] == done + rest;
      PushAllFixed(rooted, done + [c], rest[1..]);
    }
  }

  /** The parts of a clean absolute path, cleaned, are its components. */
  lemma PushAllOfRender(cs: seq<string>)
    requires Stacked(true, cs)
    ensures PushAll(true, [], Split(Render(cs))) == cs
  {
    PushAllFixed(true, [], cs);
    assert [] + cs == cs;
    if cs == [] {
      assert "" + "/" + "" == "/";
      SplitAtSlash("", "");
      assert PushAll(true, [], ["", ""]) == PushAll(true, [], [""]) == [];
    } else {
      SplitOfJoin(cs);
      assert "" + "/" + JoinParts(cs) == Render(cs);
      SplitAtSlash("", JoinParts(cs));
      assert Split(Render(cs)) == [""] + cs;
      assert ([""] + cs)[1..] == cs;
    }
  }

  /** The components of a cleaned path are, up to skipped ones, the stack it was built from. */
  lemma PushAllOfClean(path: string)
    requires path != ""
    ensures HasPrefix(Clean(path), "/") == HasPrefix(path, "/")
    ensures Clean(path) != ""
    ensures var rooted := HasPrefix(path, "/");
      PushAll(rooted, [], Split(Clean(path))) == PushAll(rooted, [], Split(path))
  {
    var rooted := HasPrefix(path, "/");
    var stack := PushAll(rooted, [], Split(path));
    PushAllStacked(rooted, [], Split(path));
    if rooted {
      PushAllOfRender(stack);
    } else if stack == [] {
      SplitSlashFree(".");
      assert PushAll(rooted, [], ["."]) == PushAll(rooted, [], []);
    } else {
      PushAllFixed(rooted, [], stack);
      assert [] + stack == stack;
      SplitOfJoin(stack);
      JoinStartsWithFirst(stack);
    }
  }

  lemma JoinStartsWithFirst(parts: seq<string>)
    requires |parts| >= 1 && parts[0] != "" && SlashFree(parts[0])
    ensures JoinParts(parts) != "" && !HasPrefix(JoinParts(parts), "/")
  {
    assert JoinParts(parts)[0] == parts[0][0];
    assert parts[0][0] in parts[0];
  }

  /** Cleaning `a/b` only depends on the cleaned form of `a`. */
  lemma CleanOfClean(a: string, b: string)
    requires a != ""
    ensures Clean(Clean(a) + "/" + b) == Clean(a + "/" + b)
  {
    PushAllOfClean(a);
    var rooted := HasPrefix(a, "/");
    SplitAtSlash(a, b);
    SplitAtSlash(Clean(a), b);
    PushAllAppend(rooted, [], Split(a), Split(b));
    PushAllAppend(rooted, [], Split(Clean(a)), Split(b));
    assert HasPrefix(a + "/" + b, "/") == rooted;
    assert HasPrefix(Clean(a) + "/" + b, "/") == rooted;
  }

  /** The components left of a path. */
  function StackOf(p: string): seq<string> { PushAll(HasPrefix(p, "/"), [], Split(p)) }

  lemma StackPush(p: string, c: string)
    requires p != "" && SlashFree(c)
    ensures HasPrefix(p + "/" + c, "/") == HasPrefix(p, "/")
    ensures StackOf(p + "/" + c) == Push(HasPrefix(p, "/"), StackOf(p), c)
  {
    var rooted := HasPrefix(p, "/");
    assert (p + "/" + c)[0] == p[0];
    SplitSlashFree(c);
    SplitAtSlash(p, c);
    PushAllAppend(rooted, [], Split(p), [c]);
    PushesOne(rooted, StackOf(p), c);
  }

  /** Cleaning drops empty components and dots, and a component that is followed by `..`. */
  lemma CleanDots(p: string, c: string)
    requires p != "" && Proper(c)
    ensures Clean(p + "/" + ".") == Clean(p) && Clean(p + "/" + "") == Clean(p)
    ensures Clean(p + "/" + c + "/" + "..") == Clean(p)
  {
    StackPush(p, ".");
    StackPush(p, "");
    StackPush(p, c);
    StackPush(p + "/" + c, "..");
    assert StackOf(p) + [c] != [] && (StackOf(p) + [c])[..|StackOf(p)|] == StackOf(p);
  }

  lemma PushesOne(rooted: bool, stack: seq<string>, c: string)
    ensures PushAll(rooted, stack, [c]) == Push(rooted, stack, c)
  {
    assert PushAll(rooted, Push(rooted, stack, c), []) == Push(rooted, stack, c);
  }

  lemma StackOne(c: string)
    requires SlashFree(c)
    ensures StackOf(c) == Push(false, [], c) && !HasPrefix(c, "/")
  {
    SplitSlashFree(c);
    PushesOne(false, [], c);
    if c != "" { assert c[0] in c; }
  }

  /** Nothing is above the root ... */
  lemma RootUp()
    ensures Clean("/" + "..") == "/"
  {
    assert "" + "/" + ".." == "/" + "..";
    SplitSlashFree("");
    SplitSlashFree("..");
    SplitAtSlash("", "..");
    PushAllAppend(true, [], [""], [".."]);
    PushesOne(true, [], "");
    PushesOne(true, [], "..");
  }

  /** ... but a relative path may lead upwards, and the empty path is the current directory. */
  lemma CleanUp()
    ensures Clean("..") == ".." && Clean(".." + "/" + "..") == "../.."
    ensures Clean(".") == "." && Clean("") == "."
  {
    StackOne("..");
    StackOne(".");
    StackOne("");
    StackPush("..", "..");
    assert [".."] + [".."] == ["..", ".."] && JoinParts(["..", ".."]) == "../..";
  }

  lemma {:induction false} JoinPartsAppend(parts: seq<string>, last: string)
    requires |parts| >= 1
    ensures JoinParts(parts + [last]) == JoinParts(parts) + "/" + last
  {
    if |parts| > 1 {
      JoinPartsAppend(parts[1..], last);
      assert (parts + [last])[1..] == parts[1..] + [last];
    } else {
      assert (parts + [last])[1..] == [last];
    }
  }

  /** Joining in two steps is joining in one: `Join(Join(elems...), last) == Join(elems..., last)`. */
  lemma {:induction false} JoinNested(elems: seq<string>, last: string)
    ensures Join([Join(elems), last]) == Join(elems + [last])
  {
    if elems == [] {
      assert elems + [last] == [last];
      assert ["", last][1..] == [last];
    } else if elems[0] == "" {
      JoinNested(elems[1..], last);
      assert (elems + [last])[1..] == elems[1..] + [last];
    } else {
      var joined := JoinParts(elems);
      assert joined != "" by { if |elems| > 1 { assert |joined| >= |elems[0]|; } }
      PushAllOfClean(joined);
      JoinPartsAppend(elems, last);
      JoinPartsAppend([Clean(joined)], last);
      CleanOfClean(joined, last);
      assert [Clean(joined)] + [last] == [Clean(joined), last];
    }
  }

  lemma PushOne(rooted: bool, cs: seq<string>, c: string)
    requires Stacked(rooted, cs) && SlashFree(c)
    ensures PushAll(rooted, cs, [c]) == Push(rooted, cs, c)
    ensures Stacked(rooted, Push(rooted, cs, c))
  {
    assert [c][1..] == [];
    PushAllStacked(rooted, cs, [c]);
  }

  /** Joining one slash-free component onto a clean absolute path. */
  lemma JoinOne(cs: seq<string>, c: string)
    requires Stacked(true, cs) && SlashFree(c)
    ensures Join([Render(cs), c]) == Render(Push(true, cs, c))
  {
    var dir := Render(cs);
    var path := dir + "/" + c;
    assert JoinParts([dir, c]) == path by {
      JoinPartsAppend([dir], c);
      assert [dir] + [c] == [dir, c];
    }
    assert PushAll(true, [], Split(path)) == Push(true, cs, c) by {
      SplitAtSlash(dir, c);
      SplitSlashFree(c);
      PushAllAppend(true, [], Split(dir), [c]);
      PushAllOfRender(cs);
      PushOne(true, cs, c);
    }
    assert HasPrefix(path, "/");
  }
}
