/** `matchID` with its look at the map and its store apart (transform/docker/docker.go:490-508): who
    can end up with which container. */
module Races {
  import opened Claims

  /** Where a call is: before the key it stops at, between seeing it unclaimed and storing, or done. */
  datatype Phase = Looking | Storing(key: string) | Claimed(key: string) | Told(status: Status)

  datatype Asker = Asker(id: string, phase: Phase)

  datatype State = State(store: Store, askers: seq<Asker>)

  /** `Look` comes to a key, or to none; `Put` stores the flag of the key it has seen. */
  datatype Act = Look(i: nat, key: string) | Miss(i: nat) | Put(i: nat)

  function SetPhase(s: State, i: nat, p: Phase): State
    requires i < |s.askers|
  {
    s.(askers := s.askers[i := s.askers[i].(phase := p)])
  }

  function LookStep(s: State, i: nat, key: string): State
    requires i < |s.askers|
  {
    var a := s.askers[i];
    if !a.phase.Looking? || key !in s.store || !(a.id <= key) then s
    else if s.store[key] then SetPhase(s, i, Told(HasBeenTransformed))
    else SetPhase(s, i, Storing(key))
  }

  function Step(s: State, a: Act): State {
    if a.i >= |s.askers| then s
    else
      match a
      case Look(i, key) => LookStep(s, i, key)
      case Miss(i) =>
        if s.askers[i].phase.Looking? && forall k :: k in s.store ==> !(s.askers[i].id <= k)
        then SetPhase(s, i, Told(NotExist)) else s
      case Put(i) =>
        if s.askers[i].phase.Storing?
        then SetPhase(s, i, Claimed(s.askers[i].phase.key)).(store := s.store[s.askers[i].phase.key := true]) else s
  }

  function Init(store: Store, ids: seq<string>): State {
    State(store, seq(|ids|, i requires 0 <= i < |ids| => Asker(ids[i], Looking)))
  }

  function Exec(store: Store, ids: seq<string>, acts: seq<Act>): State {
    if acts == [] then Init(store, ids)
    else Step(Exec(store, ids, acts[..|acts| - 1]), acts[|acts| - 1])
  }

  // ------------------------------------------------------------ what still holds

  /** The asker has seen `key` unclaimed, and may have stored its claim. */
  predicate Has(a: Asker, key: string) { a.phase == Storing(key) || a.phase == Claimed(key) }

  ghost predicate SomeClaim(askers: seq<Asker>, key: string) {
    exists i :: 0 <= i < |askers| && askers[i].phase == Claimed(key)
  }

  ghost predicate AskerOk(store0: Store, a: Asker) {
    && (forall k :: Has(a, k) ==> k in store0 && !store0[k] && a.id <= k)
    && (a.phase == Told(NotExist) ==> forall k :: k in store0 ==> !(a.id <= k))
  }

  ghost predicate Inv(store0: Store, ids: seq<string>, s: State) {
    && s.store.Keys == store0.Keys
    && |s.askers| == |ids| && (forall i :: 0 <= i < |ids| ==> s.askers[i].id == ids[i])
    && (forall i :: 0 <= i < |s.askers| ==> AskerOk(store0, s.askers[i]))
    && forall k :: k in store0 ==> (s.store[k] <==> store0[k] || SomeClaim(s.askers, k))
  }

  lemma PutKeeps(store0: Store, ids: seq<string>, s: State, i: nat)
    requires Inv(store0, ids, s) && i < |s.askers| && s.askers[i].phase.Storing?
    ensures Inv(store0, ids, Step(s, Put(i)))
  {
    var s', key := Step(s, Put(i)), s.askers[i].phase.key;
    assert Has(s.askers[i], key);
    assert s'.askers[i].phase == Claimed(key);
    forall k ensures SomeClaim(s'.askers, k) <==> SomeClaim(s.askers, k) || k == key {
      if SomeClaim(s.askers, k) {
        var j :| 0 <= j < |s.askers| && s.askers[j].phase == Claimed(k);
        assert s'.askers[j].phase == Claimed(k);
      }
    }
  }

  lemma AnswerKeeps(store0: Store, ids: seq<string>, s: State, i: nat, p: Phase)
    requires Inv(store0, ids, s) && i < |s.askers| && s.askers[i].phase.Looking? && !p.Claimed?
    requires AskerOk(store0, s.askers[i].(phase := p))
    ensures Inv(store0, ids, SetPhase(s, i, p))
  {
    var s' := SetPhase(s, i, p);
    forall k ensures SomeClaim(s'.askers, k) <==> SomeClaim(s.askers, k) {
      if SomeClaim(s.askers, k) {
        var j :| 0 <= j < |s.askers| && s.askers[j].phase == Claimed(k);
        assert s'.askers[j].phase == Claimed(k);
      }
    }
  }

  lemma StepKeeps(store0: Store, ids: seq<string>, s: State, a: Act)
    requires Inv(store0, ids, s)
    ensures Inv(store0, ids, Step(s, a))
  {
    if a.i < |s.askers| && Step(s, a) != s {
      match a
      case Look(i, key) =>
        AnswerKeeps(store0, ids, s, i, if s.store[key] then Told(HasBeenTransformed) else Storing(key));
      case Miss(i) => AnswerKeeps(store0, ids, s, i, Told(NotExist));
      case Put(i) => PutKeeps(store0, ids, s, i);
    }
  }

  /** Even so: the containers stay the same, only unclaimed ones that match are claimed, exactly they
      are flagged, and "not found" is the truth. */
  lemma {:induction false} ClaimsMeanFlags(store: Store, ids: seq<string>, acts: seq<Act>)
    ensures Inv(store, ids, Exec(store, ids, acts))
  {
    if acts != [] {
      var n := |acts| - 1;
      ClaimsMeanFlags(store, ids, acts[..n]);
      StepKeeps(store, ids, Exec(store, ids, acts[..n]), acts[n]);
    }
  }

  // ------------------------------------------------------------ claims that are shared

  /** Both have seen `key` unclaimed and neither has stored yet. */
  predicate BothStoring(s: State, i: nat, j: nat, key: string) {
    i < |s.askers| && j < |s.askers| && s.askers[i].phase == Storing(key) && s.askers[j].phase == Storing(key)
  }

  predicate BothHave(s: State, i: nat, j: nat, key: string) {
    i < |s.askers| && j < |s.askers| && Has(s.askers[i], key) && Has(s.askers[j], key)
  }

  /** That is so now, or was so at some time before. */
  predicate OnceBothStoring(store: Store, ids: seq<string>, acts: seq<Act>, i: nat, j: nat, key: string) {
    BothStoring(Exec(store, ids, acts), i, j, key)
    || (acts != [] && OnceBothStoring(store, ids, acts[..|acts| - 1], i, j, key))
  }

  /** A second call can only see the key unclaimed while the first one has not stored. */
  lemma HaveStep(store0: Store, ids: seq<string>, s: State, a: Act, i: nat, j: nat, key: string)
    requires Inv(store0, ids, s) && i != j
    ensures BothHave(s, i, j, key) ==> BothHave(Step(s, a), i, j, key)
    ensures BothHave(Step(s, a), i, j, key) ==> BothHave(s, i, j, key) || BothStoring(Step(s, a), i, j, key)
  {
    var s' := Step(s, a);
    if BothHave(s', i, j, key) && !BothHave(s, i, j, key) {
      assert |s'.askers| == |s.askers|;
      var other := if a.i == i then j else i;
      assert s'.askers[other] == s.askers[other];
      assert s.askers[other].phase == Claimed(key) ==> SomeClaim(s.askers, key);
    }
  }

  /** Two calls claim the same container exactly when at some time both were between their look at
      it and their store: with the two in one step, as in `Claims`, that cannot be. */
  lemma {:induction false} SharedClaimIff(store: Store, ids: seq<string>, acts: seq<Act>, i: nat, j: nat, key: string)
    requires i != j
    ensures BothHave(Exec(store, ids, acts), i, j, key) <==> OnceBothStoring(store, ids, acts, i, j, key)
  {
    if acts != [] {
      var m := |acts| - 1;
      SharedClaimIff(store, ids, acts[..m], i, j, key);
      ClaimsMeanFlags(store, ids, acts[..m]);
      HaveStep(store, ids, Exec(store, ids, acts[..m]), acts[m], i, j, key);
    }
  }

  predicate BothClaimed(s: State, i: nat, j: nat, key: string) {
    i < |s.askers| && j < |s.askers| && s.askers[i].phase == Claimed(key) && s.askers[j].phase == Claimed(key)
  }

  /** Which calls can end up with the same container, in some interleaving: exactly those whose ids both
      match one that is unclaimed. */
  lemma CanShareIff(store: Store, ids: seq<string>, i: nat, j: nat, key: string)
    requires i < |ids| && j < |ids| && i != j
    ensures (exists acts :: BothClaimed(Exec(store, ids, acts), i, j, key)) <==>
      key in store && !store[key] && ids[i] <= key && ids[j] <= key
  {
    if acts :| BothClaimed(Exec(store, ids, acts), i, j, key) {
      ClaimsMeanFlags(store, ids, acts);
      var s := Exec(store, ids, acts);
      assert Has(s.askers[i], key) && Has(s.askers[j], key);
    }
    if key in store && !store[key] && ids[i] <= key && ids[j] <= key { TwoClaims(store, ids, i, j, key); }
  }

  lemma ExecMore(store: Store, ids: seq<string>, acts: seq<Act>, a: Act)
    ensures Exec(store, ids, acts + [a]) == Step(Exec(store, ids, acts), a)
  {
    assert (acts + [a])[..|acts|] == acts;
  }

  lemma ExecFour(store: Store, ids: seq<string>, a: Act, b: Act, c: Act, d: Act)
    ensures Exec(store, ids, [] + [a] + [b] + [c] + [d]) == Step(Step(Step(Step(Init(store, ids), a), b), c), d)
  {
    ExecMore(store, ids, [], a);
    ExecMore(store, ids, [] + [a], b);
    ExecMore(store, ids, [] + [a] + [b], c);
    ExecMore(store, ids, [] + [a] + [b] + [c], d);
  }

  lemma TwoClaims(store: Store, ids: seq<string>, i: nat, j: nat, key: string)
    requires i < |ids| && j < |ids| && i != j
    requires key in store && !store[key] && ids[i] <= key && ids[j] <= key
    ensures exists acts :: BothClaimed(Exec(store, ids, acts), i, j, key)
  {
    ExecFour(store, ids, Look(i, key), Look(j, key), Put(i), Put(j));
    BothLook(Init(store, ids), i, j, key);
    BothPut(Step(Step(Init(store, ids), Look(i, key)), Look(j, key)), i, j, key);
    assert BothClaimed(Exec(store, ids, [] + [Look(i, key)] + [Look(j, key)] + [Put(i)] + [Put(j)]), i, j, key);
  }

  lemma BothLook(s: State, i: nat, j: nat, key: string)
    requires i < |s.askers| && j < |s.askers| && i != j && key in s.store && !s.store[key]
    requires s.askers[i].phase.Looking? && s.askers[i].id <= key
    requires s.askers[j].phase.Looking? && s.askers[j].id <= key
    ensures BothStoring(Step(Step(s, Look(i, key)), Look(j, key)), i, j, key)
  {
  }

  lemma BothPut(s: State, i: nat, j: nat, key: string)
    requires i != j && BothStoring(s, i, j, key)
    ensures BothClaimed(Step(Step(s, Put(i)), Put(j)), i, j, key)
  {
  }

  /** So calls for different full ids, those of `--all` among them, never share a container, even with
      the look and the store apart. */
  lemma FullIdsNeverShare(store: Store, ids: seq<string>, acts: seq<Act>, i: nat, j: nat, key: string)
    requires forall k :: k in store ==> |k| == CONTAINER_ID_LEN
    requires i < |ids| && j < |ids| && ids[i] != ids[j]
    requires |ids[i]| == CONTAINER_ID_LEN && |ids[j]| == CONTAINER_ID_LEN
    ensures !BothClaimed(Exec(store, ids, acts), i, j, key)
  {
    CanShareIff(store, ids, i, j, key);
    if key in store {
      FullPrefix(ids[i], key);
      FullPrefix(ids[j], key);
    }
  }

  lemma FullPrefix(id: string, key: string)
    requires |id| == |key|
    ensures id <= key ==> id == key
  {
    assert key[..|key|] == key;
  }

  /** The calls look, one after the other, before any of them stores ... */
  function Looks(n: nat, key: string): seq<Act> {
    if n == 0 then [] else Looks(n - 1, key) + [Look(n - 1, key)]
  }

  function Puts(n: nat): seq<Act> {
    if n == 0 then [] else Puts(n - 1) + [Put(n - 1)]
  }

  /** The first `n` are about to store, the others have not looked. */
  predicate Looked(s: State, store: Store, ids: seq<string>, key: string, n: nat) {
    && s.store == store && |s.askers| == |ids|
    && forall i :: 0 <= i < |ids| ==> s.askers[i] == Asker(ids[i], if i < n then Storing(key) else Looking)
  }

  lemma LookOne(s: State, store: Store, ids: seq<string>, key: string, n: nat)
    requires Looked(s, store, ids, key, n) && n < |ids| && key in store && !store[key] && ids[n] <= key
    ensures Looked(Step(s, Look(n, key)), store, ids, key, n + 1)
  {
  }

  lemma {:induction false} LooksStore(store: Store, ids: seq<string>, key: string, n: nat)
    requires n <= |ids| && key in store && !store[key] && forall i :: 0 <= i < |ids| ==> ids[i] <= key
    ensures Looked(Exec(store, ids, Looks(n, key)), store, ids, key, n)
  {
    if n == 0 {
      assert Exec(store, ids, Looks(n, key)) == Init(store, ids);
    } else {
      var k := n - 1;
      LooksStore(store, ids, key, k);
      var before := Looks(k, key);
      LookOne(Exec(store, ids, before), store, ids, key, k);
      ExecMore(store, ids, before, Look(k, key));
      assert Looks(n, key) == before + [Look(k, key)];
    }
  }

  /** The first `n` have stored, the others are about to. */
  predicate Partly(s: State, ids: seq<string>, key: string, n: nat) {
    && |s.askers| == |ids|
    && forall i :: 0 <= i < |ids| ==> s.askers[i] == Asker(ids[i], if i < n then Claimed(key) else Storing(key))
  }

  lemma AllLooked(s: State, store: Store, ids: seq<string>, key: string)
    requires Looked(s, store, ids, key, |ids|)
    ensures Partly(s, ids, key, 0)
  {
  }

  lemma PutOne(s: State, ids: seq<string>, key: string, n: nat)
    requires Partly(s, ids, key, n) && n < |ids|
    ensures Partly(Step(s, Put(n)), ids, key, n + 1)
  {
  }

  lemma {:induction false} PutsClaim(store: Store, ids: seq<string>, key: string, n: nat)
    requires n <= |ids| && key in store && !store[key] && forall i :: 0 <= i < |ids| ==> ids[i] <= key
    ensures Partly(Exec(store, ids, Looks(|ids|, key) + Puts(n)), ids, key, n)
  {
    var acts := Looks(|ids|, key) + Puts(n);
    if n == 0 {
      LooksStore(store, ids, key, |ids|);
      assert acts == Looks(|ids|, key);
      AllLooked(Exec(store, ids, acts), store, ids, key);
    } else {
      var before := Looks(|ids|, key) + Puts(n - 1);
      PutsClaim(store, ids, key, n - 1);
      assert acts == before + [Put(n - 1)];
      ExecMore(store, ids, before, Put(n - 1));
      PutOne(Exec(store, ids, before), ids, key, n - 1);
    }
  }

  /** ... and so any number of calls whose ids match an unclaimed container can all claim it. */
  lemma AnyNumberOfClaims(store: Store, ids: seq<string>, key: string)
    requires key in store && !store[key] && forall i :: 0 <= i < |ids| ==> ids[i] <= key
    ensures exists acts :: Partly(Exec(store, ids, acts), ids, key, |ids|)
  {
    PutsClaim(store, ids, key, |ids|);
  }
}
