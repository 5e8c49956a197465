/** A pass whose calls do not fail, among passes of other clusters that may fail: exactly when it ends without an
    error, and exactly when the users of the target's bindings are then its owners. */
module RbacPass {
  import opened Api
  import opened Calls
  import opened Rbac
  import opened RbacSteps
  import opened RbacRuns

  ghost predicate ManagedHaveUsers(s: Store, t: Target) {
    forall k | IsManaged(s, t, k) :: User(s[k]) != ""
  }

  /** No grant of an owner is waiting for its finalizers to go. */
  ghost predicate OwnersGrantsStand(s: Store, t: Target) {
    forall u | IsOwner(s, t, u) && GrantKey(t, u) in s :: !s[GrantKey(t, u)].deleting
  }

  /** The target's project is there with the UID it is labelled with, and every selected binding, of the project, of
      the host or of the operator's own, has a user. */
  ghost predicate InOrder(s: Store, t: Target) {
    ProjectIsTheOne(s, t) && SourcesHaveUsers(s, t) && ManagedHaveUsers(s, t)
  }

  predicate AllHaveUsers(entries: seq<Entry>) {
    forall i | 0 <= i < |entries| :: User(entries[i].obj) != ""
  }

  /** One of the first `n` entries has no user. */
  predicate UserlessBefore(entries: seq<Entry>, n: nat) {
    exists i | 0 <= i < n && i < |entries| :: User(entries[i].obj) == ""
  }

  /** Where a pass without failed calls can be: it has failed exactly if it has come past an entry without a user. */
  ghost predicate OnCourse(s: Store, t: Target, pc: Pc) {
    match pc
    case GrantGet(sources, i, failed) => ProjectIsTheOne(s, t) && failed == UserlessBefore(sources, i)
    case GrantCreate(sources, i, failed) =>
      ProjectIsTheOne(s, t) && failed == UserlessBefore(sources, i)
      && i < |sources| && GrantKey(t, User(sources[i].obj)) !in s
    case ManagedList(_) => ProjectIsTheOne(s, t)
    case Revoke(_, managed, i, failed) =>
      ProjectIsTheOne(s, t) && failed == UserlessBefore(managed, i) && i < |managed| && User(managed[i].obj) != ""
      && (ManagedHaveUsers(s, t) <==> AllHaveUsers(managed))
    case Finished(err) => (err.None? <==> InOrder(s, t)) && (err.None? ==> Converged(s, t))
    case _ => true
  }

  // ---- what a pass without failed calls leaves as it is ----

  /** The two stores agree on what decides how a pass ends. */
  ghost predicate SameStanding(s: Store, s': Store, t: Target) {
    && (ProjectIsTheOne(s, t) <==> ProjectIsTheOne(s', t))
    && (SourcesHaveUsers(s, t) <==> SourcesHaveUsers(s', t))
    && (ManagedHaveUsers(s, t) <==> ManagedHaveUsers(s', t))
    && (OwnersGrantsStand(s, t) <==> OwnersGrantsStand(s', t))
  }

  /** The write is of a binding with a user. */
  ghost predicate WritesUser(s: Store, a: Action) {
    (a.Create? ==> User(a.obj) != "") && (a.Delete? && a.key in s ==> User(s[a.key]) != "")
  }

  lemma OwnWritesUsers(s: Store, t: Target, pc: Pc, a: Action)
    requires Knows(s, t, pc) && OnCourse(s, t, pc) && Answers(Asks(t, pc), a) && Enabled(s, a)
    ensures WritesUser(s, a)
  {
    hide IsManaged, IsOwner, AllGranted, SourcesAre, ManagedHaveUsers;
    if pc.GrantCreate? {
      var e := pc.sources[pc.i];
      GrantHasUser(t, e.key, User(e.obj), a.obj.uid);
      assert a.obj == Object(a.obj.uid, GrantLabels(t, e.key), [], false, GrantBody(t, User(e.obj)));
    } else if pc.Revoke? {
      assert pc.managed[pc.i] in pc.managed;
    }
  }

  lemma ManagedUsersSame(s: Store, t: Target, a: Action)
    requires Enabled(s, a) && (IsGrant(s, t, a) || IsRevocation(s, t, a)) && WritesUser(s, a)
    ensures ManagedHaveUsers(s, t) <==> ManagedHaveUsers(Apply(s, a), t)
  {
    hide SourcesHaveUsers, IsOwner, User, AllGranted, GrantKey;
    if IsGrant(s, t, a) {
      assert forall k | k in s :: IsManaged(s, t, k) <==> IsManaged(Apply(s, a), t, k);
    } else {
      DeletedSameUser(s, a);
      ManagedUsersAfterDelete(s, Apply(s, a), t, a.key);
    }
  }

  lemma ManagedUsersAfterDelete(s: Store, s': Store, t: Target, key: Key)
    requires key in s && User(s[key]) != ""
    requires forall k | k in s' :: k in s && s'[k].labels == s[k].labels && User(s'[k]) == User(s[k])
    requires forall k | k in s && k != key :: k in s' && s'[k] == s[k]
    ensures ManagedHaveUsers(s, t) <==> ManagedHaveUsers(s', t)
  {
    hide User;
    forall k
      ensures IsManaged(s', t, k) ==> IsManaged(s, t, k)
      ensures IsManaged(s, t, k) && k != key ==> IsManaged(s', t, k)
    {
    }
  }

  lemma StandingSame(s: Store, t: Target, a: Action)
    requires Enabled(s, a) && (IsGrant(s, t, a) || IsRevocation(s, t, a)) && WellNamed(s, t)
    requires forall u :: IsOwner(s, t, u) <==> IsOwner(Apply(s, a), t, u)
    ensures OwnersGrantsStand(s, t) <==> OwnersGrantsStand(Apply(s, a), t)
  {
    hide IsOwner, User, AllGranted, SourcesHaveUsers, GrantKey;
    var s' := Apply(s, a);
    forall u | IsOwner(s, t, u)
      ensures GrantKey(t, u) in s ==> GrantKey(t, u) in s' && s'[GrantKey(t, u)] == s[GrantKey(t, u)]
      ensures GrantKey(t, u) in s' && GrantKey(t, u) !in s ==> !s'[GrantKey(t, u)].deleting
    {
      if IsRevocation(s, t, a) {
        assert a.key == GrantKey(t, User(s[a.key]));
        GrantKeysDiffer(t, u, User(s[a.key]));
      }
    }
  }

  lemma OwnWriteSameStanding(s: Store, t: Target, a: Action)
    requires Enabled(s, a) && (Apply(s, a) == s || IsGrant(s, t, a) || IsRevocation(s, t, a))
    requires WellNamed(s, t) && WritesUser(s, a)
    ensures SameStanding(s, Apply(s, a), t)
  {
    if Apply(s, a) != s {
      WritesStayWithin(s, t, a);
      SourcesSeenAlike(s, Apply(s, a), t);
      ManagedUsersSame(s, t, a);
      hide IsOwner, User, AllGranted, SourcesHaveUsers, GrantKey, SameBase, OnlyWithin, Apply, IsGrant, IsRevocation,
        OwnersGrantsStand, ManagedHaveUsers, ProjectIsTheOne, WellNamed, IsSource, IsProjectSource, WritesUser;
      StandingSame(s, t, a);
    }
  }

  lemma OthersSameStanding(s: Store, s': Store, name: string, t: Target)
    requires SameBase(s, s') && OnlyWithin(s, s', name) && t.name != name
    ensures SameStanding(s, s', t)
  {
    SourcesSeenAlike(s, s', t);
    NamespaceSeenAlike(s, s', name, t);
    hide IsOwner, User, SameBase, OnlyWithin, IsSource, IsProjectSource, ProjectIsTheOne, SourcesHaveUsers, IsManaged;
    forall u
      ensures SameKey(s, s', GrantKey(t, u))
    {
      assert InNamespace(t.name, GrantKey(t, u));
    }
  }

  // ---- the course is kept ----

  lemma CourseSeenAlike(s: Store, s': Store, name: string, t: Target, pc: Pc)
    requires SameBase(s, s') && OnlyWithin(s, s', name) && t.name != name && OnCourse(s, t, pc)
    ensures OnCourse(s', t, pc)
  {
    OthersSameStanding(s, s', name, t);
    NamespaceSeenAlike(s, s', name, t);
    hide User, SameBase, OnlyWithin, IsManaged, Converged, ProjectIsTheOne, SourcesHaveUsers, ManagedHaveUsers,
      OwnersGrantsStand, UserlessBefore, AllHaveUsers;
    if pc.Finished? {
      hide Work;
      NoWorkMeansConverged(s, t);
      OthersWorkStays(s, s', name, t);
      NoWorkMeansConverged(s', t);
    }
  }

  lemma SourcesListUsers(s: Store, t: Target, sources: seq<Entry>)
    requires SourcesAre(s, t, sources)
    ensures SourcesHaveUsers(s, t) <==> !UserlessBefore(sources, |sources|)
  {
    hide User, IsSource;
    forall i | 0 <= i < |sources|
      ensures IsSource(s, t, sources[i].key) && s[sources[i].key] == sources[i].obj
    {
      assert sources[i] in sources;
    }
    forall k | IsSource(s, t, k)
      ensures k in s && exists i | 0 <= i < |sources| :: sources[i].obj == s[k]
    {
      SourceIsThere(s, t, k);
      assert Entry(k, s[k]) in sources;
      var i :| 0 <= i < |sources| && sources[i] == Entry(k, s[k]);
    }
  }

  lemma SourceIsThere(s: Store, t: Target, k: Key)
    requires IsSource(s, t, k)
    ensures k in s
  {
  }

  lemma ManagedIsThere(s: Store, t: Target, k: Key)
    requires IsManaged(s, t, k)
    ensures k in s
  {
  }

  lemma ManagedListUsers(s: Store, t: Target, managed: seq<Entry>)
    requires IsListing(s, ManagedBindings(t), managed)
    ensures ManagedHaveUsers(s, t) <==> AllHaveUsers(managed)
  {
    ManagedListed(s, t, managed);
    hide User, IsManaged, IsListing, ManagedBindings;
    forall i | 0 <= i < |managed|
      ensures IsManaged(s, t, managed[i].key) && s[managed[i].key] == managed[i].obj
    {
      assert managed[i] in managed;
    }
    forall k | IsManaged(s, t, k)
      ensures exists i | 0 <= i < |managed| :: managed[i].obj == s[k]
    {
      assert k in s by { ManagedIsThere(s, t, k); }
      assert Entry(k, s[k]) in managed;
    }
  }

  lemma UserlessNext(entries: seq<Entry>, i: nat)
    requires i < |entries|
    ensures UserlessBefore(entries, i + 1) <==> UserlessBefore(entries, i) || User(entries[i].obj) == ""
  {
  }

  lemma {:induction false} GrantOnCourse(s: Store, t: Target, sources: seq<Entry>, i: nat, failed: bool)
    requires SourcesAre(s, t, sources) && ProjectIsTheOne(s, t) && i <= |sources| && failed == UserlessBefore(sources, i)
    ensures OnCourse(s, t, GrantAt(sources, i, failed)) && !GrantAt(sources, i, failed).GrantCreate?
    decreases |sources| - i
  {
    hide User, SourcesAre, ProjectIsTheOne, SourcesHaveUsers, ManagedHaveUsers, UserlessBefore, Converged;
    if i >= |sources| {
      SourcesListUsers(s, t, sources);
    } else if User(sources[i].obj) == "" {
      UserlessNext(sources, i);
      GrantOnCourse(s, t, sources, i + 1, true);
    }
  }

  lemma UserlessAtEnd(entries: seq<Entry>)
    ensures UserlessBefore(entries, |entries|) <==> !AllHaveUsers(entries)
  {
  }

  lemma {:induction false} RevokeOnCourse(s: Store, t: Target, owners: set<string>, managed: seq<Entry>, i: nat,
                                          failed: bool)
    requires ProjectIsTheOne(s, t) && SourcesHaveUsers(s, t) && (ManagedHaveUsers(s, t) <==> AllHaveUsers(managed))
    requires i <= |managed| && failed == UserlessBefore(managed, i)
    ensures var to := RevokeAt(owners, managed, i, failed);
      if to.Finished? then (to == DONE <==> InOrder(s, t)) && (to.err.None? ==> to == DONE)
      else to.Revoke? && OnCourse(s, t, to)
    decreases |managed| - i
  {
    hide User, ProjectIsTheOne, SourcesHaveUsers, ManagedHaveUsers, UserlessBefore, AllHaveUsers, Converged;
    if i >= |managed| {
      UserlessAtEnd(managed);
    } else {
      UserlessNext(managed, i);
      if User(managed[i].obj) == "" {
        RevokeOnCourse(s, t, owners, managed, i + 1, true);
      } else if User(managed[i].obj) in owners {
        RevokeOnCourse(s, t, owners, managed, i + 1, failed);
      }
    }
  }

  /** Without a failed call the pass stays on course, up to its end. */
  lemma CourseKept(s: Store, t: Target, pc: Pc, a: Action)
    requires WellNamed(s, t) && Knows(s, t, pc) && OnCourse(s, t, pc)
    requires Answers(Asks(t, pc), a) && Enabled(s, a) && !IsFault(a) && SameStanding(s, Apply(s, a), t)
    ensures OnCourse(Apply(s, a), t, Next(t, pc, a))
  {
    hide Converged, WellNamed, Knows, OnCourse, SameStanding, Asks, Next, Enabled, Apply, IsFault;
    if pc.ManagedList? || pc.Revoke? {
      OwnStep(s, t, pc, a);
      RevokingOnCourse(s, t, pc, a);
    } else if pc.GrantGet? || pc.GrantCreate? {
      GrantingOnCourse(s, t, pc, a);
    } else {
      ReadingOnCourse(s, t, pc, a);
    }
  }

  lemma ListReply(t: Target, pc: Pc, a: Action)
    requires pc.ManagedList? && Answers(Asks(t, pc), a) && !IsFault(a)
    ensures a.List? && a.query == ManagedBindings(t) && a.items.Ok?
    ensures Next(t, pc, a) == RevokeAt(pc.owners, a.items.value, 0, false)
  {
    hide RevokeAt, ManagedBindings;
  }

  lemma DeleteReply(t: Target, pc: Pc, a: Action)
    requires pc.Revoke? && pc.i < |pc.managed| && Answers(Asks(t, pc), a) && !IsFault(a)
    ensures Next(t, pc, a) == RevokeAt(pc.owners, pc.managed, pc.i + 1, pc.failed)
  {
    hide RevokeAt;
  }

  lemma GetReply(t: Target, pc: Pc, s: Store, a: Action)
    requires pc.GrantGet? && pc.i < |pc.sources| && Answers(Asks(t, pc), a) && !IsFault(a) && Enabled(s, a)
    ensures a.Get? && Apply(s, a) == s
    ensures Next(t, pc, a) == if a.got.NotFound? then GrantCreate(pc.sources, pc.i, pc.failed)
                              else GrantAt(pc.sources, pc.i + 1, pc.failed)
    ensures a.got.NotFound? ==> GrantKey(t, User(pc.sources[pc.i].obj)) !in s
  {
    hide GrantAt, User;
  }

  lemma CreateTakes(t: Target, pc: Pc, s: Store, a: Action)
    requires pc.GrantCreate? && pc.i < |pc.sources| && Answers(Asks(t, pc), a) && !IsFault(a) && Enabled(s, a)
    requires GrantKey(t, User(pc.sources[pc.i].obj)) !in s
    ensures Next(t, pc, a) == GrantAt(pc.sources, pc.i + 1, pc.failed)
  {
    CreateReply(t, pc, a);
    hide GrantAt, User, GrantKey, Asks, Next, Answers;
  }

  lemma RevokingOnCourse(s: Store, t: Target, pc: Pc, a: Action)
    requires pc.ManagedList? || pc.Revoke?
    requires WellNamed(s, t) && Knows(s, t, pc) && OnCourse(s, t, pc)
    requires Answers(Asks(t, pc), a) && Enabled(s, a) && !IsFault(a) && SameStanding(s, Apply(s, a), t)
    ensures OnCourse(Apply(s, a), t, Next(t, pc, a))
  {
    OwnStep(s, t, pc, a);
    hide User, IsManaged, IsOwner, ProjectIsTheOne, SourcesHaveUsers, ManagedHaveUsers, UserlessBefore, AllHaveUsers,
      Converged, RevokeAt, WellNamed, AllGranted, StillManaged, SurplusAhead, OwnersGrantsStand, ManagedBindings,
      IsListing, Apply, Asks, Answers, Next, Enabled, IsFault;
    if pc.ManagedList? {
      ListReply(t, pc, a);
      StartsRevoking(s, t, pc, a);
      RevokeOnCourse(Apply(s, a), t, pc.owners, a.items.value, 0, false);
    } else {
      DeleteReply(t, pc, a);
      UserlessNext(pc.managed, pc.i);
      RevokeOnCourse(Apply(s, a), t, pc.owners, pc.managed, pc.i + 1, pc.failed);
    }
  }

  lemma StartsRevoking(s: Store, t: Target, pc: Pc, a: Action)
    requires pc.ManagedList? && Answers(Asks(t, pc), a) && Enabled(s, a) && !IsFault(a)
    ensures a.items.Ok? && (ManagedHaveUsers(s, t) <==> AllHaveUsers(a.items.value)) && !UserlessBefore(a.items.value, 0)
  {
    ManagedListUsers(s, t, a.items.value);
  }

  lemma GrantingOnCourse(s: Store, t: Target, pc: Pc, a: Action)
    requires pc.GrantGet? || pc.GrantCreate?
    requires WellNamed(s, t) && Knows(s, t, pc) && OnCourse(s, t, pc)
    requires Answers(Asks(t, pc), a) && Enabled(s, a) && !IsFault(a) && SameStanding(s, Apply(s, a), t)
    ensures OnCourse(Apply(s, a), t, Next(t, pc, a))
  {
    UserlessNext(pc.sources, pc.i);
    hide User, ProjectIsTheOne, SourcesHaveUsers, ManagedHaveUsers, UserlessBefore, SourcesAre, Granted, GrantAt,
      WellNamed, OwnersGrantsStand, Converged, Asks, Answers, Next, Enabled, IsFault, Apply;
    if pc.GrantGet? {
      GetReply(t, pc, s, a);
    } else {
      SourcesAfterGrant(s, t, pc, a);
      CreateTakes(t, pc, s, a);
    }
    if !(pc.GrantGet? && a.got.NotFound?) {
      GrantOnCourse(Apply(s, a), t, pc.sources, pc.i + 1, pc.failed);
    }
  }

  lemma ReadingOnCourse(s: Store, t: Target, pc: Pc, a: Action)
    requires !pc.ManagedList? && !pc.Revoke? && !pc.GrantGet? && !pc.GrantCreate?
    requires Knows(s, t, pc) && OnCourse(s, t, pc) && Answers(Asks(t, pc), a) && Enabled(s, a) && !IsFault(a)
    ensures OnCourse(Apply(s, a), t, Next(t, pc, a))
  {
    ReadsChangeNothing(s, t, pc, a);
    hide Converged, User, SourcesHaveUsers, IsListing, ManagedHaveUsers, ProjectSources, HostSources, SourcesAre,
      ProjectSourcesAre, BindingNamespace, HostBindings, GrantAt, UserlessBefore;
    if pc.CrtbList? {
      SourcesExact(s, t, pc.projectSources, a.items.value);
      NoneBefore(pc.projectSources + HostSources(a.items.value));
      GrantOnCourse(s, t, pc.projectSources + HostSources(a.items.value), 0, false);
    }
  }

  lemma NoneBefore(entries: seq<Entry>)
    ensures !UserlessBefore(entries, 0)
  {
  }

  // ---- among other passes ----

  /** The pass of `n` makes no failing call in this step and does not start over. */
  predicate FaultFreeStep(e: Event, n: string) {
    e.name == n ==> e.Call? && !IsFault(e.a)
  }

  ghost predicate Well(ts: Targets, w: World, n: string) {
    Inv(ts, w) && n in ts && OnCourse(w.store, ts[n], PassOf(w, n))
  }

  lemma WellKept(ts: Targets, w: World, e: Event, n: string)
    requires Well(ts, w, n) && Can(ts, w, e) && FaultFreeStep(e, n)
    ensures Well(ts, Do(ts, w, e), n) && SameStanding(w.store, Do(ts, w, e).store, ts[n])
  {
    InvKept(ts, w, e);
    hide Knows, Asks, Next, WellNamed, NoLeftovers, Enabled, OnCourse, SameBase, OnlyWithin, IsGrant, IsRevocation, Apply,
      ProjectIsTheOne, SourcesHaveUsers, ManagedHaveUsers, OwnersGrantsStand;
    if e.Call? {
      var t := ts[e.name];
      WritesAreGrantsOrRevocations(w.store, t, PassOf(w, e.name), e.a);
      if e.name == n {
        OwnWritesUsers(w.store, t, PassOf(w, n), e.a);
        OwnWriteSameStanding(w.store, t, e.a);
        CourseKept(w.store, t, PassOf(w, n), e.a);
      } else {
        WritesStayWithin(w.store, t, e.a);
        OthersSameStanding(w.store, Apply(w.store, e.a), e.name, ts[n]);
        CourseSeenAlike(w.store, Apply(w.store, e.a), e.name, ts[n], PassOf(w, n));
      }
    }
  }

  predicate FaultFreePass(run: seq<Event>, n: string) {
    forall i | 0 <= i < |run| :: FaultFreeStep(run[i], n)
  }

  lemma {:induction false} WellAlways(ts: Targets, w: World, run: seq<Event>, n: string)
    requires Well(ts, w, n) && Ran(ts, w, run) && FaultFreePass(run, n)
    ensures Well(ts, End(ts, w, run), n) && SameStanding(w.store, End(ts, w, run).store, ts[n])
    decreases |run|
  {
    hide Inv, OnCourse, Can, Do, ProjectIsTheOne, SourcesHaveUsers, ManagedHaveUsers, OwnersGrantsStand;
    if run != [] {
      WellAlways(ts, w, run[..|run| - 1], n);
      WellKept(ts, End(ts, w, run[..|run| - 1]), run[|run| - 1], n);
    }
  }

  /** The base of sources is never written. */
  lemma {:induction false} BaseStays(ts: Targets, w: World, run: seq<Event>)
    requires Inv(ts, w) && Ran(ts, w, run)
    ensures SameBase(w.store, End(ts, w, run).store)
    decreases |run|
  {
    hide Inv, Can, Do, SameBase;
    if run == [] {
      SameAsItself(w.store);
    } else {
      var before := run[..|run| - 1];
      BaseStays(ts, w, before);
      InvAlways(ts, w, before);
      var mid := End(ts, w, before);
      StepKeepsBase(ts, mid, run[|run| - 1]);
      SameBaseOnwards(w.store, mid.store, End(ts, w, run).store);
    }
  }

  lemma SameAsItself(s: Store)
    ensures SameBase(s, s)
  {
  }

  lemma SameBaseOnwards(s: Store, mid: Store, s': Store)
    requires SameBase(s, mid) && SameBase(mid, s')
    ensures SameBase(s, s')
  {
    forall k
      ensures (IsBase(s, k) <==> IsBase(s', k)) && (IsBase(s, k) ==> s[k] == s'[k])
    {
      assert IsBase(s, k) <==> IsBase(mid, k);
    }
  }

  lemma StepKeepsBase(ts: Targets, w: World, e: Event)
    requires Inv(ts, w) && Can(ts, w, e)
    ensures SameBase(w.store, Do(ts, w, e).store)
  {
    hide Knows, Asks, WellNamed, NoLeftovers, Enabled;
    if e.Call? {
      WritesAreGrantsOrRevocations(w.store, ts[e.name], PassOf(w, e.name), e.a);
      WritesStayWithin(w.store, ts[e.name], e.a);
    }
  }

  /** A binding of the target in force for this user. */
  ghost predicate HasBinding(s: Store, t: Target, u: string) {
    exists k :: IsManaged(s, t, k) && !s[k].deleting && User(s[k]) == u
  }

  /** Exactly the owners by the bindings of `s` have a binding in force in `s'`. */
  ghost predicate OwnersServed(s: Store, s': Store, t: Target) {
    forall u :: HasBinding(s', t, u) <==> IsOwner(s, t, u)
  }

  /** In a converged store the owners are served exactly if none of their grants is being deleted. */
  lemma ServedExactly(s: Store, t: Target)
    requires Converged(s, t) && WellNamed(s, t)
    ensures OwnersServed(s, s, t) <==> OwnersGrantsStand(s, t)
  {
    hide IsOwner, User, Missing, Surplus;
    if OwnersGrantsStand(s, t) {
      forall u
        ensures HasBinding(s, t, u) <==> IsOwner(s, t, u)
      {
        ConvergedUsersAreOwners(s, t, u);
      }
    }
    if OwnersServed(s, s, t) {
      forall u | IsOwner(s, t, u) && GrantKey(t, u) in s
        ensures !s[GrantKey(t, u)].deleting
      {
        assert HasBinding(s, t, u);
        var k :| IsManaged(s, t, k) && !s[k].deleting && User(s[k]) == u;
        assert k == GrantKey(t, User(s[k]));
      }
    }
  }

  lemma SameOwnersServed(s: Store, s': Store, t: Target)
    requires SameBase(s, s')
    ensures OwnersServed(s, s', t) <==> OwnersServed(s', s', t)
  {
    hide IsOwner, SameBase, HasBinding;
    forall u
      ensures IsOwner(s, t, u) <==> IsOwner(s', t, u)
    {
      SameBaseSameOwners(s, s', t, u);
    }
  }

  /** When a pass none of whose calls fails has ended, however other passes interleaved with it and failed: it has
      ended without an error if and only if the target's project is in place and every selected binding has a user;
      if so, exactly the owners by the bindings there were at its start have a binding in force if and only if no
      owner's grant was being deleted then, and no pass of this target ever writes again. */
  lemma FaultFreePassSettles(ts: Targets, w: World, run: seq<Event>, n: string, later: seq<Event>)
    requires Inv(ts, w) && n in ts && PassOf(w, n) == ProjectGet
    requires Ran(ts, w, run) && FaultFreePass(run, n) && PassOf(End(ts, w, run), n).Finished?
    requires Ran(ts, End(ts, w, run), later)
    ensures PassOf(End(ts, w, run), n) == DONE <==> InOrder(w.store, ts[n])
    ensures PassOf(End(ts, w, run), n) == DONE ==>
      (OwnersServed(w.store, End(ts, w, run).store, ts[n]) <==> OwnersGrantsStand(w.store, ts[n]))
    ensures PassOf(End(ts, w, run), n) == DONE ==> Writes(ts, End(ts, w, run), later, n) == 0
  {
    hide Knows, WellNamed, Work, OwnersServed, OwnersGrantsStand, Ran, End, Writes, SameBase, NoLeftovers, Converged,
      ManagedHaveUsers, SourcesHaveUsers, ProjectIsTheOne;
    WellAlways(ts, w, run, n);
    BaseStays(ts, w, run);
    var w' := End(ts, w, run);
    if PassOf(w', n) == DONE {
      ServedExactly(w'.store, ts[n]);
      SameOwnersServed(w.store, w'.store, ts[n]);
      NoWorkMeansConverged(w'.store, ts[n]);
      WritesBalanceWork(ts, w', later, n);
    }
  }

  // ---- the pass ends ----

  function Stage(pc: Pc): nat {
    match pc
    case ProjectGet => 6
    case PrtbList(_) => 5
    case CrtbList(_) => 4
    case GrantGet(_, _, _) => 3
    case GrantCreate(_, _, _) => 3
    case ManagedList(_) => 2
    case Revoke(_, _, _, _) => 1
    case Finished(_) => 0
  }

  function Ahead(pc: Pc): nat {
    match pc
    case GrantGet(sources, i, _) => if i < |sources| then 2 * (|sources| - i) else 0
    case GrantCreate(sources, i, _) => if i < |sources| then 2 * (|sources| - i) - 1 else 0
    case Revoke(_, managed, i, _) => if i < |managed| then |managed| - i else 0
    case _ => 0
  }

  /** Every reply takes the pass nearer to its end, so it makes finitely many calls. */
  lemma EveryReplyCounts(t: Target, pc: Pc, a: Action)
    requires Answers(Asks(t, pc), a)
    ensures var to := Next(t, pc, a); Stage(to) < Stage(pc) || (Stage(to) == Stage(pc) && Ahead(to) < Ahead(pc))
  {
    hide User, ProjectSources, HostSources;
    match pc
    case CrtbList(ps) => if a.items.Ok? { GrantAhead(ps + HostSources(a.items.value), 0, false); }
    case GrantGet(sources, i, failed) =>
      GrantAhead(sources, i + 1, failed || !a.got.Ok?);
    case GrantCreate(sources, i, failed) => GrantAhead(sources, i + 1, failed || !a.done.Ok?);
    case ManagedList(owners) => if a.items.Ok? { RevokeAheadOf(owners, a.items.value, 0, false); }
    case Revoke(owners, managed, i, failed) =>
      RevokeAheadOf(owners, managed, i + 1, failed || !(a.done.Ok? || a.done.NotFound?));
    case _ =>
  }

  lemma {:induction false} GrantAhead(sources: seq<Entry>, i: nat, failed: bool)
    ensures var to := GrantAt(sources, i, failed);
      Stage(to) <= 3 && (Stage(to) == 3 ==> i < |sources| && Ahead(to) <= 2 * (|sources| - i))
    decreases |sources| - i
  {
    if i < |sources| && User(sources[i].obj) == "" {
      GrantAhead(sources, i + 1, true);
    }
  }

  lemma {:induction false} RevokeAheadOf(owners: set<string>, managed: seq<Entry>, i: nat, failed: bool)
    ensures var to := RevokeAt(owners, managed, i, failed);
      Stage(to) <= 1 && (Stage(to) == 1 ==> i < |managed| && Ahead(to) <= |managed| - i)
    decreases |managed| - i
  {
    if i < |managed| {
      RevokeAheadOf(owners, managed, i + 1, true);
      RevokeAheadOf(owners, managed, i + 1, failed);
    }
  }
}
