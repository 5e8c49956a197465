/** Passes of many clusters running at once over one store, with failing calls, interleaved call by call. */
module RbacRuns {
  import opened Api
  import opened Calls
  import opened Rbac
  import opened RbacSteps

  datatype World = World(store: Store, passes: map<string, Pc>)

  datatype Event = Begin(name: string) | Call(name: string, a: Action)

  type Targets = map<string, Target>

  predicate Named(ts: Targets) {
    forall n | n in ts :: ts[n].name == n
  }

  function PassOf(w: World, n: string): Pc {
    if n in w.passes then w.passes[n] else DONE
  }

  /** A cluster has one pass at a time, as controller-runtime reconciles one request of a name at a time. */
  ghost predicate Can(ts: Targets, w: World, e: Event) {
    e.name in ts &&
    match e
    case Begin(n) => PassOf(w, n).Finished?
    case Call(n, a) => Answers(Asks(ts[n], PassOf(w, n)), a) && Enabled(w.store, a)
  }

  ghost function Do(ts: Targets, w: World, e: Event): World
    requires Can(ts, w, e)
  {
    match e
    case Begin(n) => w.(passes := w.passes[n := Start(ts[n])])
    case Call(n, a) => World(Apply(w.store, a), w.passes[n := Next(ts[n], PassOf(w, n), a)])
  }

  /** An object that is being deleted is still there because it has finalizers. */
  ghost predicate NoLeftovers(s: Store) {
    forall k | k in s && s[k].deleting :: s[k].finalizers != []
  }

  ghost predicate Inv(ts: Targets, w: World) {
    Named(ts) && NoLeftovers(w.store)
    && forall n | n in ts :: WellNamed(w.store, ts[n]) && Knows(w.store, ts[n], PassOf(w, n))
  }

  lemma CallKeepsTarget(ts: Targets, w: World, e: Event, n: string)
    requires Inv(ts, w) && e.Call? && Can(ts, w, e) && n in ts
    ensures WellNamed(Do(ts, w, e).store, ts[n]) && Knows(Do(ts, w, e).store, ts[n], PassOf(Do(ts, w, e), n))
  {
    hide Knows, Asks, Next, WellNamed, NoLeftovers, Enabled;
    var t := ts[e.name];
    OwnStep(w.store, t, PassOf(w, e.name), e.a);
    if n != e.name {
      WritesAreGrantsOrRevocations(w.store, t, PassOf(w, e.name), e.a);
      WritesStayWithin(w.store, t, e.a);
      OthersKeepKnowing(w.store, Apply(w.store, e.a), t.name, ts[n], PassOf(w, n));
      OthersStayWellNamed(w.store, Apply(w.store, e.a), t.name, ts[n]);
    }
  }

  lemma OthersStayWellNamed(s: Store, s': Store, name: string, t: Target)
    requires SameBase(s, s') && OnlyWithin(s, s', name) && t.name != name && WellNamed(s, t)
    ensures WellNamed(s', t)
  {
    NamespaceSeenAlike(s, s', name, t);
    hide SameBase, OnlyWithin, User, GrantKey;
  }

  lemma InvKept(ts: Targets, w: World, e: Event)
    requires Inv(ts, w) && Can(ts, w, e)
    ensures Inv(ts, Do(ts, w, e))
  {
    hide WellNamed, Next, Asks;
    forall n | n in ts
      ensures WellNamed(Do(ts, w, e).store, ts[n]) && Knows(Do(ts, w, e).store, ts[n], PassOf(Do(ts, w, e), n))
    {
      if e.Call? {
        CallKeepsTarget(ts, w, e, n);
      }
    }
  }

  /** Initially no pass is running and the names of grants are the operator's. */
  ghost predicate Init(ts: Targets, w: World) {
    Named(ts) && NoLeftovers(w.store) && w.passes == map[] && forall n | n in ts :: WellNamed(w.store, ts[n])
  }

  ghost predicate Ran(ts: Targets, w: World, run: seq<Event>)
    decreases |run|, 0
  {
    run == [] || (Ran(ts, w, run[..|run| - 1]) && Can(ts, End(ts, w, run[..|run| - 1]), run[|run| - 1]))
  }

  ghost function End(ts: Targets, w: World, run: seq<Event>): World
    requires Ran(ts, w, run)
    decreases |run|, 1
  {
    if run == [] then w else Do(ts, End(ts, w, run[..|run| - 1]), run[|run| - 1])
  }

  lemma {:induction false} InvAlways(ts: Targets, w: World, run: seq<Event>)
    requires Inv(ts, w) && Ran(ts, w, run)
    ensures Inv(ts, End(ts, w, run))
    decreases |run|
  {
    hide Inv, Can, Do;
    if run != [] {
      InvAlways(ts, w, run[..|run| - 1]);
      InvKept(ts, End(ts, w, run[..|run| - 1]), run[|run| - 1]);
    }
  }

  lemma InitInv(ts: Targets, w: World)
    requires Init(ts, w)
    ensures Inv(ts, w)
  {
  }

  // ---- safety under failures ----

  ghost predicate HasGrant(s: Store, t: Target, u: string) {
    GrantKey(t, u) in s && !s[GrantKey(t, u)].deleting
  }

  lemma GrantsOfOwnersStay(s: Store, t: Target, a: Action, t': Target, u: string)
    requires Enabled(s, a) && (Apply(s, a) == s || IsGrant(s, t, a) || IsRevocation(s, t, a))
    requires WellNamed(s, t) && IsOwner(s, t', u) && HasGrant(s, t', u) && (t'.name == t.name ==> t' == t)
    ensures HasGrant(Apply(s, a), t', u) && Apply(s, a)[GrantKey(t', u)] == s[GrantKey(t', u)]
  {
    hide IsOwner, AllGranted, User, SourcesHaveUsers;
    if IsRevocation(s, t, a) && a.key == GrantKey(t', u) {
      GrantKeysDiffer(t, u, User(s[a.key]));
      assert a.key == GrantKey(t, User(s[a.key]));
    }
  }

  /** Whatever calls fail and however passes interleave, no step takes the grant of a user who is an owner, of
      this or any other target; nothing is revoked while an owner lacks a grant or a source lacks a user. */
  lemma NoOwnerLosesAccess(ts: Targets, w: World, run: seq<Event>, e: Event, n: string, u: string)
    requires Init(ts, w) && Ran(ts, w, run) && Can(ts, End(ts, w, run), e) && n in ts
    ensures IsOwner(End(ts, w, run).store, ts[n], u) && HasGrant(End(ts, w, run).store, ts[n], u)
        ==> HasGrant(Do(ts, End(ts, w, run), e).store, ts[n], u)
    ensures e.Call? && e.a.Delete? ==>
      AllGranted(End(ts, w, run).store, ts[e.name]) && SourcesHaveUsers(End(ts, w, run).store, ts[e.name])
  {
    hide IsOwner, HasGrant, Knows, Asks, Next, AllGranted, SourcesHaveUsers;
    InitInv(ts, w);
    InvAlways(ts, w, run);
    var now := End(ts, w, run);
    if e.Call? {
      WritesAreGrantsOrRevocations(now.store, ts[e.name], PassOf(now, e.name), e.a);
      if IsOwner(now.store, ts[n], u) && HasGrant(now.store, ts[n], u) {
        GrantsOfOwnersStay(now.store, ts[e.name], e.a, ts[n], u);
      }
    }
  }

  // ---- the work that is left ----

  ghost function Owners(s: Store, t: Target): set<string> {
    set k | k in s && IsSource(s, t, k) :: User(s[k])
  }

  ghost function MissingSet(s: Store, t: Target): set<string> {
    set u | u in Owners(s, t) && GrantKey(t, u) !in s
  }

  ghost function SurplusSet(s: Store, t: Target): set<Key> {
    set k | k in s && Surplus(s, t, k)
  }

  /** Missing owners plus surplus bindings. */
  ghost function Work(s: Store, t: Target): nat {
    |MissingSet(s, t)| + |SurplusSet(s, t)|
  }

  lemma OwnersExact(s: Store, t: Target)
    ensures forall u :: u in Owners(s, t) <==> IsOwner(s, t, u)
  {
  }

  lemma MissingSetExact(s: Store, t: Target)
    ensures forall u :: u in MissingSet(s, t) <==> Missing(s, t, u)
  {
    OwnersExact(s, t);
    hide IsOwner, Owners, GrantKey;
  }

  /** No work is left exactly when the target has converged. */
  lemma NoWorkMeansConverged(s: Store, t: Target)
    ensures Work(s, t) == 0 <==> Converged(s, t)
  {
    MissingSetExact(s, t);
    hide Missing, MissingSet;
    if Converged(s, t) {
      assert MissingSet(s, t) == {};
      assert SurplusSet(s, t) == {};
    }
    if Work(s, t) == 0 {
      forall k
        ensures !Surplus(s, t, k)
      {
        assert k !in SurplusSet(s, t);
      }
    }
  }

  lemma OneFewerMissing(s: Store, s': Store, t: Target, u: string)
    requires Missing(s, t, u)
    requires forall v :: IsOwner(s, t, v) <==> IsOwner(s', t, v)
    requires forall v :: GrantKey(t, v) in s' <==> GrantKey(t, v) in s || v == u
    ensures |MissingSet(s', t)| == |MissingSet(s, t)| - 1
  {
    MissingSetExact(s, t);
    MissingSetExact(s', t);
    hide IsOwner, MissingSet, GrantKey;
    assert MissingSet(s', t) == MissingSet(s, t) - {u};
  }

  lemma GrantFillsOne(s: Store, t: Target, a: Action)
    requires Enabled(s, a) && IsGrant(s, t, a)
    ensures |MissingSet(Apply(s, a), t)| == |MissingSet(s, t)| - 1
  {
    var s' := Apply(s, a);
    var u := User(a.obj);
    WritesStayWithin(s, t, a);
    SourcesSeenAlike(s, s', t);
    hide IsOwner, MissingSet, User, SameBase, OnlyWithin, GrantKey, IsSource, IsProjectSource;
    forall v
      ensures GrantKey(t, v) in s' <==> GrantKey(t, v) in s || v == u
    {
      GrantKeysDiffer(t, u, v);
    }
    OneFewerMissing(s, s', t, u);
  }

  lemma GrantIsNoSurplus(s: Store, t: Target, a: Action)
    requires Enabled(s, a) && IsGrant(s, t, a)
    ensures SurplusSet(Apply(s, a), t) == SurplusSet(s, t)
  {
    var s' := Apply(s, a);
    WritesStayWithin(s, t, a);
    SourcesSeenAlike(s, s', t);
    hide IsOwner, User, SameBase, OnlyWithin, IsSource, IsProjectSource, GrantKey, SourcesHaveUsers, ProjectIsTheOne;
    forall k
      ensures k in s' && Surplus(s', t, k) <==> k in s && Surplus(s, t, k)
    {
    }
  }

  lemma GrantDoesOne(s: Store, t: Target, a: Action)
    requires Enabled(s, a) && IsGrant(s, t, a)
    ensures Work(Apply(s, a), t) == Work(s, t) - 1
  {
    GrantFillsOne(s, t, a);
    GrantIsNoSurplus(s, t, a);
  }

  lemma RevocationLeavesNoneMissing(s: Store, t: Target, a: Action)
    requires WellNamed(s, t) && Enabled(s, a) && IsRevocation(s, t, a)
    ensures MissingSet(Apply(s, a), t) == MissingSet(s, t)
  {
    var s' := Apply(s, a);
    WritesStayWithin(s, t, a);
    SourcesSeenAlike(s, s', t);
    MissingSetExact(s, t);
    MissingSetExact(s', t);
    DeletedSameUser(s, a);
    hide IsOwner, MissingSet, User, SameBase, OnlyWithin, IsSource, IsProjectSource, GrantKey, SourcesHaveUsers,
      ProjectIsTheOne, Apply;
    forall v
      ensures Missing(s', t, v) <==> Missing(s, t, v)
    {
      assert a.key == GrantKey(t, User(s[a.key]));
      GrantKeysDiffer(t, v, User(s[a.key]));
    }
  }

  lemma OneFewerSurplus(s: Store, s': Store, t: Target, key: Key)
    requires Surplus(s, t, key) && (key in s' ==> s'[key].deleting)
    requires forall v :: IsOwner(s, t, v) <==> IsOwner(s', t, v)
    requires forall k | k != key :: SameKey(s, s', k)
    ensures |SurplusSet(s', t)| == |SurplusSet(s, t)| - 1
  {
    hide IsOwner, User;
    forall k | k != key
      ensures Surplus(s', t, k) <==> Surplus(s, t, k)
    {
      assert SameKey(s, s', k);
    }
    assert SurplusSet(s', t) == SurplusSet(s, t) - {key};
  }

  lemma RevocationTakesOne(s: Store, t: Target, a: Action)
    requires NoLeftovers(s) && Enabled(s, a) && IsRevocation(s, t, a) && Apply(s, a) != s
    ensures |SurplusSet(Apply(s, a), t)| == |SurplusSet(s, t)| - 1
  {
    var s' := Apply(s, a);
    WritesStayWithin(s, t, a);
    SourcesSeenAlike(s, s', t);
    DeletedSameUser(s, a);
    DeleteOfDeletedChangesNothing(s, a);
    hide IsOwner, User, SameBase, OnlyWithin, IsSource, IsProjectSource, SurplusSet, NoLeftovers, AllGranted,
      SourcesHaveUsers;
    OneFewerSurplus(s, s', t, a.key);
  }

  lemma DeleteOfDeletedChangesNothing(s: Store, a: Action)
    requires NoLeftovers(s) && a.Delete? && a.took && Enabled(s, a)
    ensures s[a.key].deleting ==> Apply(s, a) == s
  {
    assert s[a.key].deleting ==> s[a.key := s[a.key].(deleting := true)] == s;
  }

  lemma RevocationDoesOne(s: Store, t: Target, a: Action)
    requires WellNamed(s, t) && NoLeftovers(s) && Enabled(s, a) && IsRevocation(s, t, a) && Apply(s, a) != s
    ensures Work(Apply(s, a), t) == Work(s, t) - 1
  {
    hide MissingSet, SurplusSet, IsRevocation, WellNamed, NoLeftovers, Enabled, Apply;
    RevocationLeavesNoneMissing(s, t, a);
    RevocationTakesOne(s, t, a);
  }

  lemma OthersWorkStays(s: Store, s': Store, name: string, t: Target)
    requires SameBase(s, s') && OnlyWithin(s, s', name) && t.name != name
    ensures Work(s', t) == Work(s, t)
  {
    OtherNamespaceAlike(s, s', name, t);
    NamespaceSeenAlike(s, s', name, t);
    OwnersExact(s, t);
    OwnersExact(s', t);
    hide IsOwner, IsSource, User, SameBase, OnlyWithin, Owners, IsManaged, GrantKey, Alike;
    assert MissingSet(s', t) == MissingSet(s, t);
    assert SurplusSet(s', t) == SurplusSet(s, t);
  }

  /** Every call that changes the store does exactly one piece of its own target's work and touches no other
      target's; so work never grows, and it bounds the writes of all passes and retries together. */
  lemma EachWriteDoesOne(ts: Targets, w: World, e: Event, n: string)
    requires Inv(ts, w) && Can(ts, w, e) && n in ts
    ensures Work(Do(ts, w, e).store, ts[n]) ==
      Work(w.store, ts[n]) - if e.name == n && Do(ts, w, e).store != w.store then 1 else 0
  {
    hide Knows, Asks, Next, WellNamed, NoLeftovers, Enabled, Work;
    if e.Call? {
      var t := ts[e.name];
      WritesAreGrantsOrRevocations(w.store, t, PassOf(w, e.name), e.a);
      if Apply(w.store, e.a) != w.store {
        if e.name != n {
          WritesStayWithin(w.store, t, e.a);
          OthersWorkStays(w.store, Apply(w.store, e.a), t.name, ts[n]);
        } else if IsGrant(w.store, t, e.a) {
          GrantDoesOne(w.store, t, e.a);
        } else {
          RevocationDoesOne(w.store, t, e.a);
        }
      }
    }
  }

  /** The calls of `n`'s passes that changed the store. */
  ghost function Writes(ts: Targets, w: World, run: seq<Event>, n: string): nat
    requires Ran(ts, w, run)
    decreases |run|
  {
    if run == [] then 0
    else
      var before := run[..|run| - 1];
      Writes(ts, w, before, n)
      + if run[|run| - 1].name == n && End(ts, w, run).store != End(ts, w, before).store then 1 else 0
  }

  /** Over any run, with any failures and any interleaving, what a target's passes wrote is what its work went
      down by: at most as many writes as there was work, and none once it has converged. */
  lemma {:induction false} WritesBalanceWork(ts: Targets, w: World, run: seq<Event>, n: string)
    requires Inv(ts, w) && Ran(ts, w, run) && n in ts
    ensures Writes(ts, w, run, n) + Work(End(ts, w, run).store, ts[n]) == Work(w.store, ts[n])
    decreases |run|
  {
    hide Inv, Can, Do, Work;
    if run != [] {
      var before := run[..|run| - 1];
      WritesBalanceWork(ts, w, before, n);
      InvAlways(ts, w, before);
      EachWriteDoesOne(ts, End(ts, w, before), run[|run| - 1], n);
    }
  }

  // ---- convergence ----

  /** A pass of `n` that ends without an error after its last listing leaves its target converged, and no later
      step of any pass undoes that. */
  lemma {:induction false} FinishedPassConverges(ts: Targets, w: World, e: Event, later: seq<Event>)
    requires Inv(ts, w) && e.Call? && Can(ts, w, e) && Ran(ts, Do(ts, w, e), later)
    requires PassOf(w, e.name).ManagedList? || PassOf(w, e.name).Revoke?
    requires PassOf(Do(ts, w, e), e.name) == DONE
    ensures Converged(End(ts, Do(ts, w, e), later).store, ts[e.name])
  {
    hide Knows, Asks, WellNamed, NoLeftovers, Enabled, Work, Converged, Ran, End, Writes;
    var n := e.name;
    OwnStep(w.store, ts[n], PassOf(w, n), e.a);
    var w' := Do(ts, w, e);
    InvKept(ts, w, e);
    NoWorkMeansConverged(w'.store, ts[n]);
    WritesBalanceWork(ts, w', later, n);
    NoWorkMeansConverged(End(ts, w', later).store, ts[n]);
  }

  /** Converged means: the users of the managed bindings in force are exactly the owners (as far as no owner's
      own grant is just being deleted). */
  lemma ConvergedUsersAreOwners(s: Store, t: Target, u: string)
    requires Converged(s, t) && WellNamed(s, t)
    requires forall v | IsOwner(s, t, v) && GrantKey(t, v) in s :: !s[GrantKey(t, v)].deleting
    ensures (exists k :: IsManaged(s, t, k) && !s[k].deleting && User(s[k]) == u) <==> IsOwner(s, t, u)
  {
    hide IsOwner, User;
    if IsOwner(s, t, u) {
      assert !Missing(s, t, u);
      var k := GrantKey(t, u);
      assert IsManaged(s, t, k) && k == GrantKey(t, User(s[k]));
      GrantKeysDiffer(t, u, User(s[k]));
    }
    if k :| IsManaged(s, t, k) && !s[k].deleting && User(s[k]) == u {
      assert !Surplus(s, t, k);
    }
  }
}
