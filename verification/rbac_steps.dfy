/** One step of a pass: what it writes, what it knows afterwards, and what other passes keep knowing. */
module RbacSteps {
  import opened Text
  import opened Json
  import opened Api
  import opened Calls
  import opened Constants
  import opened Rbac

  /** A grant: a binding made for a user who is missing one. */
  ghost predicate IsGrant(s: Store, t: Target, a: Action) {
    a.Create? && a.took && a.key !in s && InNamespace(t.name, a.key) && ServiceUidOf(a.obj) == ServiceUid(t)
    && LABEL_SERVICE_UID in a.obj.labels && a.key == GrantKey(t, User(a.obj)) && IsOwner(s, t, User(a.obj))
  }

  /** A revocation: a managed binding of a user who is not an owner, deleted while every owner has a grant and
      no source lacks a user. */
  ghost predicate IsRevocation(s: Store, t: Target, a: Action) {
    a.Delete? && a.took && IsManaged(s, t, a.key) && !IsOwner(s, t, User(s[a.key]))
    && AllGranted(s, t) && SourcesHaveUsers(s, t)
  }

  lemma GrantHasUser(t: Target, parent: Key, user: string, uid: string)
    ensures User(Object(uid, GrantLabels(t, parent), [], false, GrantBody(t, user))) == user
    ensures ServiceUidOf(Object(uid, GrantLabels(t, parent), [], false, GrantBody(t, user))) == ServiceUid(t)
    ensures LABEL_SERVICE_UID in GrantLabels(t, parent)
  {
    var body := GrantBody(t, user);
    assert "userName" != "clusterName" && "userName" != "roleTemplateName";
    assert body["userName"] == Literal(user);
    assert |LABEL_SERVICE_UID| != |LABEL_PARENT_CRTB| && |LABEL_SERVICE_UID| != |LABEL_PARENT_PRTB|;
  }

  /** The labels of a grant for the source `k` point back at `k`, by the label for its kind and no other. */
  predicate PointsAt(labels: Api.Labels, k: Key) {
    var crtb := k.kind == ClusterBinding;
    var mine := if crtb then LABEL_PARENT_CRTB else LABEL_PARENT_PRTB;
    var other := if crtb then LABEL_PARENT_PRTB else LABEL_PARENT_CRTB;
    mine in labels && labels[mine] == k.name && other !in labels
  }

  lemma GrantPointsAt(t: Target, k: Key)
    ensures PointsAt(GrantLabels(t, k), k)
  {
    assert LABEL_PARENT_CRTB[15] != LABEL_PARENT_PRTB[15];
    assert |LABEL_SERVICE_UID| != |LABEL_PARENT_CRTB| && |LABEL_SERVICE_UID| != |LABEL_PARENT_PRTB|;
  }

  lemma GrantGivesOwnership(t: Target, user: string, uid: string, labels: Api.Labels)
    ensures var obj := Object(uid, labels, [], false, GrantBody(t, user));
      Role(obj) == "cluster-owner" && Str(obj.body, ["clusterName"]) == t.name && User(obj) == user
  {
    var body := GrantBody(t, user);
    assert body["userName"] == Literal(user) && body["clusterName"] == Literal(t.name);
    assert body["roleTemplateName"] == Literal("cluster-owner");
  }

  /** Every grant a pass makes gives the user of a source that is there ownership of this very cluster, and points
      back at a source of that user. */
  lemma GrantsNameTheirSource(s: Store, t: Target, pc: Pc, a: Action)
    requires Knows(s, t, pc) && Answers(Asks(t, pc), a) && a.Create?
    ensures a.key.cluster == LOCAL && a.key.kind == ClusterBinding && a.key.namespace == t.name
    ensures a.key.name == "vcluster-" + User(a.obj) + "-co"
    ensures Role(a.obj) == "cluster-owner" && Str(a.obj.body, ["clusterName"]) == t.name && !a.obj.deleting
    ensures LABEL_SERVICE_UID in a.obj.labels && ServiceUidOf(a.obj) == Lookup(t.labels, LABEL_SERVICE_UID)
    ensures exists k :: IsSource(s, t, k) && User(s[k]) == User(a.obj) && User(a.obj) != "" && PointsAt(a.obj.labels, k)
  {
    hide IsSource, PointsAt, GrantLabels, User, Role;
    assert pc.GrantCreate?;
    var e := pc.sources[pc.i];
    assert e in pc.sources && IsSource(s, t, e.key);
    GrantPointsAt(t, e.key);
    GrantGivesOwnership(t, User(e.obj), a.obj.uid, a.obj.labels);
    GrantHasUser(t, e.key, User(e.obj), a.obj.uid);
    assert a.obj == Object(a.obj.uid, a.obj.labels, [], false, GrantBody(t, User(e.obj)));
  }

  /** Every call of a pass that changes the store is a grant or a revocation. */
  lemma WritesAreGrantsOrRevocations(s: Store, t: Target, pc: Pc, a: Action)
    requires Knows(s, t, pc) && Answers(Asks(t, pc), a) && Enabled(s, a)
    ensures Apply(s, a) == s || IsGrant(s, t, a) || IsRevocation(s, t, a)
    ensures a.Delete? ==> AllGranted(s, t) && SourcesHaveUsers(s, t) && pc.Revoke?
    ensures a.Delete? && a.key in s ==> IsManaged(s, t, a.key) && !IsOwner(s, t, User(s[a.key]))
  {
    hide ManagedBindings, IsSource;
    if pc.GrantCreate? {
      var e := pc.sources[pc.i];
      assert e in pc.sources && IsSource(s, t, e.key);
      GrantHasUser(t, e.key, User(e.obj), a.obj.uid);
      assert a.obj == Object(a.obj.uid, GrantLabels(t, e.key), [], false, GrantBody(t, User(e.obj)));
    }
    if pc.Revoke? {
      assert pc.managed[pc.i] in pc.managed;
    }
  }

  lemma WritesStayWithin(s: Store, t: Target, a: Action)
    requires Enabled(s, a) && (Apply(s, a) == s || IsGrant(s, t, a) || IsRevocation(s, t, a))
    ensures SameBase(s, Apply(s, a)) && OnlyWithin(s, Apply(s, a), t.name)
  {
    hide IsOwner, AllGranted, User;
  }

  // ---- other passes ----

  /** The two stores look the same to a pass for `t`. */
  ghost predicate Alike(s: Store, s': Store, t: Target) {
    && (forall u :: IsOwner(s, t, u) <==> IsOwner(s', t, u))
    && (forall u :: GrantKey(t, u) in s <==> GrantKey(t, u) in s')
    && (forall k | InNamespace(t.name, k) :: SameKey(s, s', k))
    && (forall k :: IsManaged(s, t, k) <==> IsManaged(s', t, k))
    && (forall entries :: SourcesAre(s, t, entries) <==> SourcesAre(s', t, entries))
    && (forall entries :: ProjectSourcesAre(s, t, entries) <==> ProjectSourcesAre(s', t, entries))
    && (ProjectIsTheOne(s, t) <==> ProjectIsTheOne(s', t))
    && SameKey(s, s', ProjectKey(t))
    && (SourcesHaveUsers(s, t) <==> SourcesHaveUsers(s', t))
  }

  lemma EntriesAlike(s: Store, s': Store, t: Target, entries: seq<Entry>)
    requires SameBase(s, s')
    ensures SourcesAre(s, t, entries) <==> SourcesAre(s', t, entries)
    ensures ProjectSourcesAre(s, t, entries) <==> ProjectSourcesAre(s', t, entries)
  {
    SourcesSeenAlike(s, s', t);
    hide SameBase, IsSource, IsProjectSource, IsOwner, BindingNamespace, SourcesAre, ProjectSourcesAre, SourcesHaveUsers,
      ProjectIsTheOne;
    SourceEntriesAlike(s, s', t, entries);
    ProjectEntriesAlike(s, s', t, entries);
  }

  lemma SourceEntriesAlike(s: Store, s': Store, t: Target, entries: seq<Entry>)
    requires forall k :: IsSource(s, t, k) <==> IsSource(s', t, k)
    requires forall k | IsSource(s, t, k) :: k in s && k in s' && s[k] == s'[k]
    ensures SourcesAre(s, t, entries) <==> SourcesAre(s', t, entries)
  {
    hide IsSource;
    assert forall e: Entry :: (e.key in s && s[e.key] == e.obj && IsSource(s, t, e.key))
                         <==> (e.key in s' && s'[e.key] == e.obj && IsSource(s', t, e.key));
  }

  lemma ProjectEntriesAlike(s: Store, s': Store, t: Target, entries: seq<Entry>)
    requires forall k :: IsProjectSource(s, t, k) <==> IsProjectSource(s', t, k)
    requires forall k | IsProjectSource(s, t, k) :: k in s && k in s' && s[k] == s'[k]
    ensures ProjectSourcesAre(s, t, entries) <==> ProjectSourcesAre(s', t, entries)
  {
    hide IsProjectSource;
    assert forall e: Entry :: (e.key in s && s[e.key] == e.obj && IsProjectSource(s, t, e.key))
                         <==> (e.key in s' && s'[e.key] == e.obj && IsProjectSource(s', t, e.key));
  }

  lemma OtherNamespaceAlike(s: Store, s': Store, name: string, t: Target)
    requires SameBase(s, s') && OnlyWithin(s, s', name) && t.name != name
    ensures Alike(s, s', t)
  {
    SourcesSeenAlike(s, s', t);
    NamespaceSeenAlike(s, s', name, t);
    hide SameBase, OnlyWithin, IsSource, IsProjectSource, IsManaged, GrantKey, User, IsOwner, BindingNamespace,
      SourcesAre,
      ProjectSourcesAre, SourcesHaveUsers, ProjectIsTheOne;
    forall entries
      ensures SourcesAre(s, t, entries) <==> SourcesAre(s', t, entries)
      ensures ProjectSourcesAre(s, t, entries) <==> ProjectSourcesAre(s', t, entries)
    {
      EntriesAlike(s, s', t, entries);
    }
  }

  /** A step within one cluster's namespace takes nothing from what a pass of another cluster knows. */
  lemma OthersKeepKnowing(s: Store, s': Store, name: string, t: Target, pc: Pc)
    requires SameBase(s, s') && OnlyWithin(s, s', name) && t.name != name && Knows(s, t, pc)
    ensures Knows(s', t, pc)
  {
    OtherNamespaceAlike(s, s', name, t);
    hide Alike;
    if pc.Revoke? {
      RevokeAlike(s, s', t, pc);
    } else if pc.GrantGet? || pc.GrantCreate? {
      GrantAlike(s, s', t, pc);
    } else {
      RestAlike(s, s', t, pc);
    }
  }

  lemma RestAlike(s: Store, s': Store, t: Target, pc: Pc)
    requires !pc.Revoke? && !pc.GrantGet? && !pc.GrantCreate? && Alike(s, s', t) && Knows(s, t, pc)
    ensures Knows(s', t, pc)
  {
    hide IsOwner, GrantKey, IsManaged, SourcesAre, ProjectSourcesAre, AllGranted, SourcesHaveUsers;
    if pc.ManagedList? {
      AllGrantedAlike(s, s', t);
    }
  }

  lemma GrantAlike(s: Store, s': Store, t: Target, pc: Pc)
    requires (pc.GrantGet? || pc.GrantCreate?) && Alike(s, s', t) && Knows(s, t, pc)
    ensures Knows(s', t, pc)
  {
    hide IsOwner, GrantKey, IsManaged, SourcesAre, ProjectSourcesAre, Granted, User;
    if !pc.failed {
      GrantedAlike(s, s', t, pc.sources, pc.i);
    }
  }

  lemma RevokeAlike(s: Store, s': Store, t: Target, pc: Pc)
    requires pc.Revoke? && Alike(s, s', t) && Knows(s, t, pc)
    ensures Knows(s', t, pc)
  {
    hide IsOwner, GrantKey, IsManaged, SourcesAre, ProjectSourcesAre, User, StillManaged, SurplusAhead, AllGranted,
      SourcesHaveUsers;
    AllGrantedAlike(s, s', t);
    StillManagedAlike(s, s', t, pc.managed);
    if !pc.failed {
      SurplusAheadAlike(s, s', t, pc.managed, pc.i);
    }
  }

  lemma AllGrantedAlike(s: Store, s': Store, t: Target)
    requires AllGranted(s, t)
    requires forall u :: IsOwner(s, t, u) <==> IsOwner(s', t, u)
    requires forall u | GrantKey(t, u) in s :: GrantKey(t, u) in s'
    ensures AllGranted(s', t)
  {
    hide IsOwner, GrantKey;
    forall u
      ensures !Missing(s', t, u)
    {
      assert !Missing(s, t, u);
    }
  }

  lemma StillManagedAlike(s: Store, s': Store, t: Target, managed: seq<Entry>)
    requires StillManaged(s, t, managed)
    requires forall k | InNamespace(t.name, k) :: SameKey(s, s', k)
    ensures StillManaged(s', t, managed)
  {
    hide User;
  }

  lemma SurplusAheadAlike(s: Store, s': Store, t: Target, managed: seq<Entry>, i: nat)
    requires SurplusAhead(s, t, managed, i)
    requires forall u :: IsOwner(s, t, u) <==> IsOwner(s', t, u)
    requires forall k | InNamespace(t.name, k) :: SameKey(s, s', k)
    ensures SurplusAhead(s', t, managed, i)
  {
    hide IsOwner, User;
    forall k | Surplus(s', t, k)
      ensures exists n | i <= n < |managed| :: managed[n].key == k
    {
      assert InNamespace(t.name, k);
      assert Surplus(s, t, k);
    }
  }

  lemma GrantedAlike(s: Store, s': Store, t: Target, sources: seq<Entry>, n: nat)
    requires Granted(s, t, sources, n) && forall u | GrantKey(t, u) in s :: GrantKey(t, u) in s'
    ensures Granted(s', t, sources, n)
  {
  }

  lemma SourcesSeenAlike(s: Store, s': Store, t: Target)
    requires SameBase(s, s')
    ensures forall k :: IsSource(s, t, k) <==> IsSource(s', t, k)
    ensures forall k :: IsProjectSource(s, t, k) <==> IsProjectSource(s', t, k)
    ensures forall k :: IsSource(s, t, k) || IsProjectSource(s, t, k) ==> k in s && k in s' && s[k] == s'[k]
    ensures forall u :: IsOwner(s, t, u) <==> IsOwner(s', t, u)
    ensures SameKey(s, s', ProjectKey(t))
    ensures ProjectIsTheOne(s, t) <==> ProjectIsTheOne(s', t)
    ensures SourcesHaveUsers(s, t) <==> SourcesHaveUsers(s', t)
  {
    hide SameBase;
    forall k
      ensures IsSource(s, t, k) <==> IsSource(s', t, k)
      ensures IsProjectSource(s, t, k) <==> IsProjectSource(s', t, k)
      ensures IsSource(s, t, k) || IsProjectSource(s, t, k) ==> k in s && k in s' && s[k] == s'[k]
    {
      SameBaseSameSources(s, s', t, k);
    }
    SameBaseSameSources(s, s', t, ProjectKey(t));
    forall u
      ensures IsOwner(s, t, u) <==> IsOwner(s', t, u)
    {
      SameBaseSameOwners(s, s', t, u);
    }
  }

  lemma NamespaceSeenAlike(s: Store, s': Store, name: string, t: Target)
    requires OnlyWithin(s, s', name) && t.name != name
    ensures forall k | InNamespace(t.name, k) :: SameKey(s, s', k)
    ensures forall k :: IsManaged(s, t, k) <==> IsManaged(s', t, k)
    ensures forall k | IsManaged(s, t, k) :: k in s' && s[k] == s'[k]
    ensures forall u :: GrantKey(t, u) in s <==> GrantKey(t, u) in s'
  {
    forall k
      ensures IsManaged(s, t, k) <==> IsManaged(s', t, k)
      ensures IsManaged(s, t, k) ==> k in s' && s[k] == s'[k]
    {
      if !InNamespace(name, k) {
        assert SameKey(s, s', k);
      }
    }
    forall u
      ensures GrantKey(t, u) in s <==> GrantKey(t, u) in s'
    {
      assert SameKey(s, s', GrantKey(t, u));
    }
  }

  // ---- the pass itself ----

  lemma {:induction false} GrantLoopKnows(s: Store, t: Target, sources: seq<Entry>, i: nat, failed: bool)
    requires SourcesAre(s, t, sources) && (!failed ==> Granted(s, t, sources, i))
    ensures Knows(s, t, GrantAt(sources, i, failed))
    decreases |sources| - i
  {
    if i >= |sources| {
      if !failed {
        UsersAreOwners(s, t, sources);
        AllSourcesGranted(s, t, sources);
      }
    } else if User(sources[i].obj) == "" {
      GrantLoopKnows(s, t, sources, i + 1, true);
    }
  }

  lemma AllSourcesGranted(s: Store, t: Target, sources: seq<Entry>)
    requires SourcesAre(s, t, sources) && Granted(s, t, sources, |sources|)
    ensures AllGranted(s, t) && SourcesHaveUsers(s, t)
  {
    hide User, GrantKey;
    forall k | IsSource(s, t, k)
      ensures User(s[k]) != ""
    {
      assert Entry(k, s[k]) in sources;
    }
    forall u
      ensures !Missing(s, t, u)
    {
      if IsOwner(s, t, u) {
        var k :| IsSource(s, t, k) && User(s[k]) == u;
        assert Entry(k, s[k]) in sources;
      }
    }
  }

  /** At the end of the revoking loop without a failure the target has converged. */
  lemma {:induction false} RevokeLoopKnows(s: Store, t: Target, owners: set<string>, managed: seq<Entry>, i: nat,
          failed: bool)
    requires OwnersAre(s, t, owners) && AllGranted(s, t) && SourcesHaveUsers(s, t) && StillManaged(s, t, managed)
    requires !failed ==> SurplusAhead(s, t, managed, i)
    ensures Knows(s, t, RevokeAt(owners, managed, i, failed))
    ensures RevokeAt(owners, managed, i, failed) == DONE ==> Converged(s, t)
    decreases |managed| - i
  {
    hide IsOwner, User, IsManaged, GrantKey;
    if i < |managed| {
      if User(managed[i].obj) == "" {
        RevokeLoopKnows(s, t, owners, managed, i + 1, true);
      } else if User(managed[i].obj) in owners {
        if !failed {
          OwnersAreNoSurplus(s, t, owners, managed, i);
        }
        RevokeLoopKnows(s, t, owners, managed, i + 1, failed);
      }
    }
  }

  lemma OwnersAreNoSurplus(s: Store, t: Target, owners: set<string>, managed: seq<Entry>, i: nat)
    requires OwnersAre(s, t, owners) && StillManaged(s, t, managed) && SurplusAhead(s, t, managed, i)
    requires i < |managed| && User(managed[i].obj) in owners
    ensures SurplusAhead(s, t, managed, i + 1)
  {
    hide IsOwner, User;
    forall k | Surplus(s, t, k)
      ensures exists n | i + 1 <= n < |managed| :: managed[n].key == k
    {
      var n :| i <= n < |managed| && managed[n].key == k;
      assert managed[i] in managed;
    }
  }

  lemma ListingKnows(s: Store, t: Target, managed: seq<Entry>)
    requires IsListing(s, ManagedBindings(t), managed)
    ensures StillManaged(s, t, managed) && SurplusAhead(s, t, managed, 0)
  {
    hide IsOwner, User;
    forall k | Surplus(s, t, k)
      ensures exists n | 0 <= n < |managed| :: managed[n].key == k
    {
      assert Entry(k, s[k]) in managed;
    }
  }

  lemma WellNamedKept(s: Store, t: Target, pc: Pc, a: Action)
    requires WellNamed(s, t) && Knows(s, t, pc) && Answers(Asks(t, pc), a) && Enabled(s, a)
    ensures WellNamed(Apply(s, a), t)
  {
    WritesAreGrantsOrRevocations(s, t, pc, a);
    hide WellNamed, Apply, IsGrant, IsRevocation, Knows, Asks, Answers, Enabled;
    if Apply(s, a) != s {
      if IsGrant(s, t, a) {
        WellNamedAfterGrant(s, t, a);
      } else {
        WellNamedAfterRevocation(s, t, a);
      }
    }
  }

  lemma WellNamedAfterGrant(s: Store, t: Target, a: Action)
    requires WellNamed(s, t) && Enabled(s, a) && IsGrant(s, t, a)
    ensures WellNamed(Apply(s, a), t)
  {
    hide IsOwner, User, GrantKey;
  }

  lemma WellNamedAfterRevocation(s: Store, t: Target, a: Action)
    requires WellNamed(s, t) && Enabled(s, a) && IsRevocation(s, t, a)
    ensures WellNamed(Apply(s, a), t)
  {
    DeletedSameUser(s, a);
    hide IsOwner, AllGranted, SourcesHaveUsers, User, GrantKey;
  }

  /** Deleting removes the binding or marks it; its user and labels stay. */
  lemma DeletedSameUser(s: Store, a: Action)
    requires a.Delete? && a.took && Enabled(s, a)
    ensures forall k | k in Apply(s, a) ::
      k in s && Apply(s, a)[k].labels == s[k].labels && User(Apply(s, a)[k]) == User(s[k])
    ensures forall k | k in s && k != a.key :: k in Apply(s, a) && Apply(s, a)[k] == s[k]
    ensures a.key in Apply(s, a) ==> Apply(s, a)[a.key].deleting
  {
  }

  lemma OwnGrantGet(s: Store, t: Target, pc: Pc, a: Action)
    requires pc.GrantGet? && Knows(s, t, pc) && Answers(Asks(t, pc), a) && Enabled(s, a)
    ensures Apply(s, a) == s && Knows(s, t, Next(t, pc, a))
  {
    hide SourcesAre, User, GrantAt;
    if !a.got.NotFound? {
      GrantLoopKnows(s, t, pc.sources, pc.i + 1, pc.failed || !a.got.Ok?);
    }
  }

  lemma OwnGrantCreate(s: Store, t: Target, pc: Pc, a: Action)
    requires pc.GrantCreate? && Knows(s, t, pc) && Answers(Asks(t, pc), a) && Enabled(s, a)
    ensures Knows(Apply(s, a), t, Next(t, pc, a))
  {
    SourcesAfterGrant(s, t, pc, a);
    GrantedAfterGrant(s, t, pc, a);
    CreateReply(t, pc, a);
    hide SourcesAre, User, GrantAt, Granted, Next, Asks, Answers, Enabled, Apply;
    GrantLoopKnows(Apply(s, a), t, pc.sources, pc.i + 1, pc.failed || !a.done.Ok?);
  }

  lemma CreateReply(t: Target, pc: Pc, a: Action)
    requires pc.GrantCreate? && pc.i < |pc.sources| && Answers(Asks(t, pc), a)
    ensures a.Create? && a.key == GrantKey(t, User(pc.sources[pc.i].obj))
    ensures Next(t, pc, a) == GrantAt(pc.sources, pc.i + 1, pc.failed || !a.done.Ok?)
  {
    hide User, GrantBody, GrantLabels, GrantAt;
  }

  lemma GrantedAfterGrant(s: Store, t: Target, pc: Pc, a: Action)
    requires pc.GrantCreate? && Knows(s, t, pc) && Answers(Asks(t, pc), a) && Enabled(s, a)
    ensures a.Create? && (!pc.failed && a.done.Ok? ==> Granted(Apply(s, a), t, pc.sources, pc.i + 1))
  {
    CreateReply(t, pc, a);
    hide SourcesAre, User, Asks, Answers, GrantKey, Granted;
    if !pc.failed && a.done.Ok? {
      OneMoreGranted(s, Apply(s, a), t, pc.sources, pc.i);
    }
  }

  lemma OneMoreGranted(s: Store, s': Store, t: Target, sources: seq<Entry>, i: nat)
    requires Granted(s, t, sources, i) && s.Keys <= s'.Keys && i < |sources|
    requires User(sources[i].obj) != "" && GrantKey(t, User(sources[i].obj)) in s'
    ensures Granted(s', t, sources, i + 1)
  {
    hide User, GrantKey;
  }

  lemma SourcesAfterGrant(s: Store, t: Target, pc: Pc, a: Action)
    requires pc.GrantCreate? && Knows(s, t, pc) && Answers(Asks(t, pc), a) && Enabled(s, a)
    ensures SourcesAre(Apply(s, a), t, pc.sources)
  {
    WritesAreGrantsOrRevocations(s, t, pc, a);
    WritesStayWithin(s, t, a);
    SourcesSeenAlike(s, Apply(s, a), t);
    hide IsSource, User, GrantBody, GrantLabels, IsOwner, SameBase, OnlyWithin, AllGranted, IsManaged;
  }

  lemma OwnReadStep(s: Store, t: Target, pc: Pc, a: Action)
    requires pc.ProjectGet? || pc.PrtbList? || pc.CrtbList? || pc.ManagedList?
    requires Knows(s, t, pc) && Answers(Asks(t, pc), a) && Enabled(s, a)
    ensures Knows(s, t, Next(t, pc, a))
    ensures pc.ManagedList? && Next(t, pc, a) == DONE ==> Converged(s, t)
  {
    hide IsSource, IsProjectSource, User, IsOwner, GrantAt, RevokeAt, AllGranted, IsListing, ProjectSources,
      HostSources, Filtered, BindingNamespace, ManagedBindings, HostBindings;
    if pc.PrtbList? && a.items.Ok? {
      ProjectSourcesExact(s, t, pc.namespace, a.items.value);
    }
    if pc.CrtbList? && a.items.Ok? {
      SourcesExact(s, t, pc.projectSources, a.items.value);
      GrantLoopKnows(s, t, pc.projectSources + HostSources(a.items.value), 0, false);
    }
    if pc.ManagedList? && a.items.Ok? {
      ListingKnows(s, t, a.items.value);
      RevokeLoopKnows(s, t, pc.owners, a.items.value, 0, false);
    }
  }

  lemma OwnRevokeStep(s: Store, t: Target, pc: Pc, a: Action)
    requires pc.Revoke? && WellNamed(s, t)
    requires Knows(s, t, pc) && Answers(Asks(t, pc), a) && Enabled(s, a)
    ensures Knows(Apply(s, a), t, Next(t, pc, a))
    ensures Next(t, pc, a) == DONE ==> Converged(Apply(s, a), t)
  {
    WritesAreGrantsOrRevocations(s, t, pc, a);
    WritesStayWithin(s, t, a);
    var s' := Apply(s, a);
    SourcesSeenAlike(s, s', t);
    AfterRevocation(s, t, pc, a);
    hide IsSource, IsProjectSource, User, IsOwner, SameBase, OnlyWithin, AllGranted, StillManaged, SurplusAhead,
      IsManaged, RevokeAt, WellNamed, SourcesHaveUsers;
    var failed := pc.failed || !(a.done.Ok? || a.done.NotFound?);
    RevokeLoopKnows(s', t, pc.owners, pc.managed, pc.i + 1, failed);
  }

  lemma AfterRevocation(s: Store, t: Target, pc: Pc, a: Action)
    requires pc.Revoke? && WellNamed(s, t) && Knows(s, t, pc) && Answers(Asks(t, pc), a) && Enabled(s, a)
    requires forall u :: IsOwner(s, t, u) <==> IsOwner(Apply(s, a), t, u)
    ensures OwnersAre(Apply(s, a), t, pc.owners) && AllGranted(Apply(s, a), t)
      && StillManaged(Apply(s, a), t, pc.managed)
    ensures !pc.failed && (a.done.Ok? || a.done.NotFound?) ==> SurplusAhead(Apply(s, a), t, pc.managed, pc.i + 1)
  {
    var s' := Apply(s, a);
    assert pc.managed[pc.i] in pc.managed;
    hide IsSource, IsProjectSource, User, IsOwner;
    if a.took {
      DeletedSameUser(s, a);
      StillManagedAfterDelete(s, t, pc.managed, a);
    }
    forall u
      ensures !Missing(s', t, u)
    {
      assert !Missing(s, t, u);
      if a.took && a.key == GrantKey(t, u) {
        assert a.key == GrantKey(t, User(s[a.key]));
        GrantKeysDiffer(t, u, User(s[a.key]));
      }
    }
    if !pc.failed && (a.done.Ok? || a.done.NotFound?) {
      SurplusAfterDelete(s, t, pc.managed, pc.i, a);
    }
  }

  lemma StillManagedAfterDelete(s: Store, t: Target, managed: seq<Entry>, a: Action)
    requires StillManaged(s, t, managed) && a.Delete? && a.took && Enabled(s, a)
    ensures StillManaged(Apply(s, a), t, managed)
  {
    DeletedSameUser(s, a);
    hide User;
  }

  lemma SurplusAfterDelete(s: Store, t: Target, managed: seq<Entry>, i: nat, a: Action)
    requires SurplusAhead(s, t, managed, i) && i < |managed| && a.Delete? && a.key == managed[i].key && Enabled(s, a)
    requires a.done.Ok? || a.done.NotFound?
    requires forall u :: IsOwner(s, t, u) <==> IsOwner(Apply(s, a), t, u)
    ensures SurplusAhead(Apply(s, a), t, managed, i + 1)
  {
    var s' := Apply(s, a);
    if a.took {
      DeletedSameUser(s, a);
    }
    hide IsOwner, User;
    forall k | Surplus(s', t, k)
      ensures exists n | i + 1 <= n < |managed| :: managed[n].key == k
    {
      assert k != a.key;
      assert Surplus(s, t, k);
      var n :| i <= n < |managed| && managed[n].key == k;
    }
  }

  /** A pass's own step keeps its knowledge; and when it ends without an error after its last listing, the
      target has converged: every owner has a grant and nobody else an undeleted one. */
  lemma OwnStep(s: Store, t: Target, pc: Pc, a: Action)
    requires WellNamed(s, t) && Knows(s, t, pc) && Answers(Asks(t, pc), a) && Enabled(s, a)
    ensures Knows(Apply(s, a), t, Next(t, pc, a)) && WellNamed(Apply(s, a), t)
    ensures (pc.ManagedList? || pc.Revoke?) && Next(t, pc, a) == DONE ==> Converged(Apply(s, a), t)
  {
    WellNamedKept(s, t, pc, a);
    hide Knows, Next, WellNamed, Converged, Enabled;
    if pc.GrantGet? {
      OwnGrantGet(s, t, pc, a);
    } else if pc.GrantCreate? {
      OwnGrantCreate(s, t, pc, a);
    } else if pc.Revoke? {
      OwnRevokeStep(s, t, pc, a);
    } else {
      ReadsChangeNothing(s, t, pc, a);
      OwnReadStep(s, t, pc, a);
    }
  }

  lemma ReadsChangeNothing(s: Store, t: Target, pc: Pc, a: Action)
    requires !pc.GrantCreate? && !pc.Revoke? && Answers(Asks(t, pc), a) && Enabled(s, a)
    ensures Apply(s, a) == s && !pc.Finished?
  {
  }
}
