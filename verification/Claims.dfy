/** The container store of the docker transformer: which containers there are, and which of
    them have been claimed for a transform. */
module Claims {
  import opened Lists

  datatype Status = NotExist | HasBeenTransformed | NeedTransform

  /** Container ids and whether a transform of them has begun. */
  type Store = map<string, bool>

  /** One call of `matchID` with its answer. */
  datatype Match = Match(id: string, fullID: string, status: Status)

  /** The answers `matchID` may give, whatever order the map is walked in. */
  predicate Answers(store: Store, m: Match) {
    match m.status
    case NotExist => m.fullID == "" && forall k :: k in store ==> !(m.id <= k)
    case HasBeenTransformed => m.fullID in store && m.id <= m.fullID && store[m.fullID]
    case NeedTransform => m.fullID in store && m.id <= m.fullID && !store[m.fullID]
  }

  function After(store: Store, m: Match): Store {
    if m.status.NeedTransform? then store[m.fullID := true] else store
  }

  const CONTAINER_ID_LEN := 64

  datatype DirEntry = DirEntry(name: string, isDir: bool)

  datatype Listing = Entries(infos: seq<DirEntry>) | ReadError

  predicate IsContainer(e: DirEntry) { e.isDir && |e.name| == CONTAINER_ID_LEN }

  class ContainerStore {
    var ctrs: Store

    /** A fresh store: one unclaimed container per listed directory with a full-length name. */
    method InitContainers(listing: Listing) returns (failed: bool)
      modifies this
      ensures failed <==> listing.ReadError?
      ensures failed ==> ctrs == map[]
      ensures !failed ==>
        && (forall k :: k in ctrs <==> |k| == 64 && exists e :: e in listing.infos && e.isDir && e.name == k)
        && (forall k :: k in ctrs ==> !ctrs[k])
    {
      ctrs := map[];
      if listing.ReadError? {
        return true;
      }
      var infos := listing.infos;
      for i := 0 to |infos|
        invariant forall k :: k in ctrs <==> exists e :: e in infos[..i] && IsContainer(e) && e.name == k
        invariant forall k :: k in ctrs ==> !ctrs[k] && |k| == CONTAINER_ID_LEN
      {
        assert infos[..i + 1] == infos[..i] + [infos[i]];
        if IsContainer(infos[i]) {
          ctrs := ctrs[infos[i].name := false];
        }
      }
      assert infos[..|infos|] == infos;
      failed := false;
    }

    /** Walks the map in any order and stops at the first key that starts with `id`. */
    method MatchID(id: string) returns (fullID: string, status: Status)
      modifies this
      ensures Answers(old(ctrs), Match(id, fullID, status))
      ensures ctrs == After(old(ctrs), Match(id, fullID, status))
    {
      fullID, status := "", NotExist;
      var rest := ctrs.Keys;
      while rest != {}
        invariant rest <= ctrs.Keys && ctrs == old(ctrs)
        invariant fullID == "" && status == NotExist
        invariant forall k :: k in ctrs && k !in rest ==> !(id <= k)
      {
        var k :| k in rest;
        if id <= k {
          fullID := k;
          if !ctrs[k] {
            ctrs := ctrs[k := true];
            status := NeedTransform;
          } else {
            status := HasBeenTransformed;
          }
          return;
        }
        rest := rest - {k};
      }
    }
  }

  // ------------------------------------------------------------ sequences of calls

  function StoreAfter(store: Store, ms: seq<Match>): Store {
    if ms == [] then store else After(StoreAfter(store, ms[..|ms| - 1]), ms[|ms| - 1])
  }

  /** Every call is answered by the store the calls before it have left. */
  ghost predicate Served(store: Store, ms: seq<Match>) {
    forall i :: 0 <= i < |ms| ==> Answers(StoreAfter(store, ms[..i]), ms[i])
  }

  /** The containers claimed by a list of calls, in order. */
  function Claimed(ms: seq<Match>): seq<string> {
    if ms == [] then []
    else
      var m := ms[|ms| - 1];
      Claimed(ms[..|ms| - 1]) + (if m.status.NeedTransform? then [m.fullID] else [])
  }

  function Flagged(store: Store): set<string> { set k | k in store && store[k] }

  lemma ServedPrefix(store: Store, ms: seq<Match>)
    requires Served(store, ms) && ms != []
    ensures Served(store, ms[..|ms| - 1])
    ensures Answers(StoreAfter(store, ms[..|ms| - 1]), ms[|ms| - 1])
  {
    var n := |ms| - 1;
    forall i | 0 <= i < n ensures Answers(StoreAfter(store, ms[..n][..i]), ms[..n][i]) {
      assert ms[..n][..i] == ms[..i];
    }
  }

  /** Over any sequence of calls and any map order: the containers stay the same, no flag is ever
      taken back, each container is handed out at most once, and exactly the containers handed
      out are the newly flagged ones. */
  lemma {:induction false} ClaimsUnique(store: Store, ms: seq<Match>)
    requires Served(store, ms)
    ensures var after := StoreAfter(store, ms);
      && after.Keys == store.Keys
      && (forall k :: k in store && store[k] ==> after[k])
      && Distinct(Claimed(ms))
      && (forall k :: k in Claimed(ms) <==> k in store && after[k] && !store[k])
  {
    if ms != [] {
      ServedPrefix(store, ms);
      ClaimsUnique(store, ms[..|ms| - 1]);
    }
  }

  /** The number of claims is the number of flags set. */
  lemma {:induction false} ClaimsCounted(store: Store, ms: seq<Match>)
    requires Served(store, ms)
    ensures |Claimed(ms)| == |Flagged(StoreAfter(store, ms))| - |Flagged(store)|
  {
    if ms != [] {
      var before, m := StoreAfter(store, ms[..|ms| - 1]), ms[|ms| - 1];
      ServedPrefix(store, ms);
      ClaimsCounted(store, ms[..|ms| - 1]);
      if m.status.NeedTransform? {
        assert Flagged(After(before, m)) == Flagged(before) + {m.fullID};
      }
    }
  }

  /** "Has been transformed" is only said of a container claimed by an earlier call. */
  lemma AnsweredTwice(store: Store, ms: seq<Match>)
    requires Served(store, ms) && ms != [] && ms[|ms| - 1].status.HasBeenTransformed?
    requires forall k :: k in store ==> !store[k]
    ensures ms[|ms| - 1].fullID in Claimed(ms[..|ms| - 1])
  {
    ServedPrefix(store, ms);
    ClaimsUnique(store, ms[..|ms| - 1]);
  }

  /** A full id only matches itself among full ids. */
  lemma FullIdMatchesItself(store: Store, m: Match)
    requires Answers(store, m) && m.id in store
    requires forall k :: k in store ==> |k| == |m.id|
    ensures m.fullID == m.id
    ensures m.status == if store[m.id] then HasBeenTransformed else NeedTransform
  {
    if !m.status.NotExist? { assert m.fullID[..|m.id|] == m.fullID; }
  }
}
