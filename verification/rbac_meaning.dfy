/** What a pass comes to in the terms of the objects alone: which bindings count, where they are looked up, and who
    owns the cluster after a pass none of whose calls failed and with nothing in between. */
module RbacMeaning {
  import opened Text
  import opened Json
  import opened Api
  import opened Calls
  import opened Constants
  import opened Errors
  import opened Rbac
  import opened RbacRuns
  import opened RbacPass

  /** The labels name the vCluster's project and host. */
  predicate Placed(t: Target) {
    LABEL_PROJECT_NAME in t.labels && t.labels[LABEL_PROJECT_NAME] != ""
    && LABEL_PROJECT_UID in t.labels && t.labels[LABEL_PROJECT_UID] != ""
    && LABEL_HOST_CLUSTER in t.labels && t.labels[LABEL_HOST_CLUSTER] != ""
  }

  function HostsProject(t: Target): Key
    requires Placed(t)
  {
    Key(LOCAL, Project, t.labels[LABEL_HOST_CLUSTER], t.labels[LABEL_PROJECT_NAME])
  }

  /** The project's status names the namespace of its bindings. */
  predicate IsBacked(project: Object, namespace: string) {
    && "status" in project.body && project.body["status"].Tree?
    && "backingNamespace" in project.body["status"].fields
    && project.body["status"].fields["backingNamespace"] == Literal(namespace) && namespace != ""
  }

  /** It names none. */
  predicate IsUnbacked(project: Object) {
    "status" in project.body ==>
      project.body["status"].Tree? &&
      ("backingNamespace" in project.body["status"].fields ==>
         project.body["status"].fields["backingNamespace"] == Literal(""))
  }

  /** A binding of the project in this namespace with an owner or member role. */
  predicate IsMembership(s: Store, t: Target, namespace: string, k: Key)
    requires Placed(t)
  {
    && k in s && k.cluster == LOCAL && k.kind == ProjectBinding && k.namespace == namespace
    && Str(s[k].body, ["projectName"]) == t.labels[LABEL_HOST_CLUSTER] + ":" + t.labels[LABEL_PROJECT_NAME]
    && (Str(s[k].body, ["roleTemplateName"]) == "project-owner"
        || Str(s[k].body, ["roleTemplateName"]) == "project-member")
  }

  /** An owner binding of the host cluster that the operator did not make. */
  predicate IsHostOwnership(s: Store, t: Target, k: Key)
    requires Placed(t)
  {
    && k in s && k.cluster == LOCAL && k.kind == ClusterBinding && k.namespace == t.labels[LABEL_HOST_CLUSTER]
    && LABEL_SERVICE_UID !in s[k].labels && Str(s[k].body, ["roleTemplateName"]) == "cluster-owner"
  }

  lemma BackingRead(project: Object, namespace: string)
    ensures IsBacked(project, namespace) ==> Str(project.body, ["status", "backingNamespace"]) == namespace
    ensures IsUnbacked(project) ==> Str(project.body, ["status", "backingNamespace"]) == ""
  {
    assert ["status", "backingNamespace"][1..] == ["backingNamespace"];
  }

  /** Where the project's status names a namespace, the memberships in that namespace count and no others. */
  lemma BackedMembershipsCount(s: Store, t: Target, namespace: string, k: Key)
    requires Placed(t) && HostsProject(t) in s && IsBacked(s[HostsProject(t)], namespace)
    ensures IsProjectSource(s, t, k) <==> IsMembership(s, t, namespace, k)
    ensures IsMembership(s, t, namespace, k) ==> IsOwner(s, t, Str(s[k].body, ["userName"]))
  {
    BackingRead(s[HostsProject(t)], namespace);
    hide Str;
    assert IsMembership(s, t, namespace, k) ==> IsSource(s, t, k) && User(s[k]) == Str(s[k].body, ["userName"]);
  }

  /** Where it names none, those in the namespace of the project's name count and no others. */
  lemma UnbackedMembershipsCount(s: Store, t: Target, k: Key)
    requires Placed(t) && HostsProject(t) in s && IsUnbacked(s[HostsProject(t)])
    ensures IsProjectSource(s, t, k) <==> IsMembership(s, t, t.labels[LABEL_PROJECT_NAME], k)
    ensures IsMembership(s, t, t.labels[LABEL_PROJECT_NAME], k) ==> IsOwner(s, t, Str(s[k].body, ["userName"]))
  {
    BackingRead(s[HostsProject(t)], "");
    hide Str;
    assert IsMembership(s, t, t.labels[LABEL_PROJECT_NAME], k) ==>
      IsSource(s, t, k) && User(s[k]) == Str(s[k].body, ["userName"]);
  }

  /** The namespace of the project's bindings, if the project is there. */
  function MembershipsAt(s: Store, t: Target): string
    requires Placed(t) && HostsProject(t) in s
  {
    var backing := Str(s[HostsProject(t)].body, ["status", "backingNamespace"]);
    if backing == "" then t.labels[LABEL_PROJECT_NAME] else backing
  }

  /** The binding makes its user an owner. */
  predicate Counts(s: Store, t: Target, k: Key)
    requires Placed(t)
  {
    (HostsProject(t) in s && IsMembership(s, t, MembershipsAt(s, t), k)) || IsHostOwnership(s, t, k)
  }

  lemma SourcesAreCounted(s: Store, t: Target, k: Key)
    requires Placed(t)
    ensures IsSource(s, t, k) <==> Counts(s, t, k)
  {
    hide Str;
  }

  /** A binding in the namespace of the target's cluster with the label of its service: one the operator made. */
  predicate IsMade(s: Store, t: Target, k: Key) {
    && k in s && k.cluster == LOCAL && k.kind == ClusterBinding && k.namespace == t.name
    && LABEL_SERVICE_UID in s[k].labels && s[k].labels[LABEL_SERVICE_UID] == Lookup(t.labels, LABEL_SERVICE_UID)
  }

  // ---- the calls of a pass ----

  /** The project's bindings are in this namespace. */
  predicate BindingsIn(t: Target, project: Object, namespace: string)
    requires Placed(t)
  {
    IsBacked(project, namespace) || (IsUnbacked(project) && namespace == t.labels[LABEL_PROJECT_NAME])
  }

  lemma ProjectReply(t: Target, a: Action, namespace: string)
    requires Placed(t) && Answers(Asks(t, ProjectGet), a)
    ensures a.Get? && a.key == HostsProject(t)
    ensures if a.got.Ok? && a.got.value.uid == t.labels[LABEL_PROJECT_UID]
            then Next(t, ProjectGet, a) == PrtbList(BindingNamespace(t, a.got.value))
            else Next(t, ProjectGet, a).Finished? && Next(t, ProjectGet, a).err.Some?
    ensures a.got.Ok? && BindingsIn(t, a.got.value, namespace) ==>
      BindingNamespace(t, a.got.value) == namespace && namespace != ""
  {
    if a.got.Ok? {
      BackingRead(a.got.value, namespace);
    }
    hide Str;
  }

  lemma BindingsReply(t: Target, namespace: string, a: Action)
    requires namespace != "" && Answers(Asks(t, PrtbList(namespace)), a)
    ensures a.List? && a.query == Query(LOCAL, ProjectBinding, Some(namespace), Anything)
  {
  }

  lemma PlacedStarts(t: Target)
    ensures Start(t) == if Placed(t) then ProjectGet else DONE
  {
  }

  /** A pass reads the project its labels name, goes on only if it has the UID they name, and then lists the project's
      bindings in the namespace that the project's status names, or else in that of its name. */
  lemma PassLooksWhereBindingsAre(t: Target, run: seq<Action>, namespace: string)
    requires Placed(t) && |run| >= 2 && Follows(Pass(t), Start(t), run)
    ensures run[0].Get? && run[0].key == HostsProject(t) && run[0].got.Ok?
    ensures run[0].got.value.uid == t.labels[LABEL_PROJECT_UID]
    ensures BindingsIn(t, run[0].got.value, namespace) ==>
      run[1].List? && run[1].query == Query(LOCAL, ProjectBinding, Some(namespace), Anything)
  {
    PlacedStarts(t);
    hide Follows, Reached, Next, Asks, Answers, BindingsIn, BindingNamespace, Start, HostsProject, Placed;
    var to := Reached(Pass(t), ProjectGet, run);
    WalkFirst(Pass(t), ProjectGet, run, to);
    ProjectReply(t, run[0], namespace);
    var mid := Next(t, ProjectGet, run[0]);
    if mid.Finished? {
      WalkEnds(Pass(t), mid, run[1..], to) by { FinishedAsksNothing(t, mid.err); }
      assert false;
    }
    WalkFirst(Pass(t), mid, run[1..], to);
    if BindingsIn(t, run[0].got.value, namespace) {
      BindingsReply(t, namespace, run[1]);
    }
  }

  lemma FinishedAsksNothing(t: Target, err: Option<Error>)
    ensures Pass(t).asks(Finished(err)) == AskNothing
  {
  }

  // ---- a pass by itself ----

  function One(t: Target): Targets {
    map[t.name := t]
  }

  function CallsOf(t: Target, run: seq<Action>): seq<Event> {
    seq(|run|, i requires 0 <= i < |run| => Call(t.name, run[i]))
  }

  /** A pass with nothing in between is a run of passes. */
  lemma {:induction false} PassIsRun(s: Store, t: Target, run: seq<Action>)
    requires Follows(Pass(t), ProjectGet, run) && Possible(s, run)
    ensures var w := World(s, map[t.name := ProjectGet]);
      && Ran(One(t), w, CallsOf(t, run))
      && End(One(t), w, CallsOf(t, run)) == World(After(s, run), map[t.name := Reached(Pass(t), ProjectGet, run)])
    decreases |run|
  {
    hide Next, Asks, Enabled, Apply;
    if run != [] {
      var before := run[..|run| - 1];
      PassIsRun(s, t, before);
      assert CallsOf(t, run)[..|run| - 1] == CallsOf(t, before);
    }
  }

  /** A user whom a binding entitles to own the cluster. */
  ghost predicate IsEntitled(s: Store, t: Target, u: string)
    requires Placed(t)
  {
    exists k :: Counts(s, t, k) && Str(s[k].body, ["userName"]) == u
  }

  /** A binding of the operator's that is in force makes the user own the cluster. */
  ghost predicate Owns(s: Store, t: Target, u: string) {
    exists k :: IsMade(s, t, k) && !s[k].deleting && Str(s[k].body, ["userName"]) == u
  }

  /** The labelled project is there and every binding that counts, or that the operator made, has a user. */
  ghost predicate CanBeServed(s: Store, t: Target)
    requires Placed(t)
  {
    && HostsProject(t) in s && s[HostsProject(t)].uid == t.labels[LABEL_PROJECT_UID]
    && (forall k | Counts(s, t, k) :: Str(s[k].body, ["userName"]) != "")
    && (forall k | IsMade(s, t, k) :: Str(s[k].body, ["userName"]) != "")
  }

  /** Where a grant is being deleted, its user is none that a binding entitles. */
  ghost predicate NoneReturning(s: Store, t: Target)
    requires Placed(t)
  {
    forall k | IsMade(s, t, k) && s[k].deleting :: !IsEntitled(s, t, Str(s[k].body, ["userName"]))
  }

  lemma EntitledAreOwners(s: Store, t: Target)
    requires Placed(t)
    ensures forall u :: IsEntitled(s, t, u) <==> IsOwner(s, t, u)
    ensures SourcesHaveUsers(s, t) <==> forall k | Counts(s, t, k) :: Str(s[k].body, ["userName"]) != ""
  {
    forall k
      ensures IsSource(s, t, k) <==> Counts(s, t, k)
      ensures Counts(s, t, k) ==> User(s[k]) == Str(s[k].body, ["userName"])
    {
      SourcesAreCounted(s, t, k);
    }
    hide IsSource, Counts, Str, User;
  }

  lemma MadeAreManaged(s: Store, t: Target)
    ensures forall k :: IsMade(s, t, k) <==> IsManaged(s, t, k)
    ensures ManagedHaveUsers(s, t) <==> forall k | IsMade(s, t, k) :: Str(s[k].body, ["userName"]) != ""
    ensures forall u :: Owns(s, t, u) <==> HasBinding(s, t, u)
  {
    forall k
      ensures IsMade(s, t, k) <==> IsManaged(s, t, k)
      ensures IsMade(s, t, k) ==> User(s[k]) == Str(s[k].body, ["userName"])
    {
    }
    hide IsMade, IsManaged, Str, User;
  }

  lemma StandingMeansNoneReturning(s: Store, t: Target)
    requires Placed(t) && WellNamed(s, t)
    ensures OwnersGrantsStand(s, t) <==> NoneReturning(s, t)
  {
    EntitledAreOwners(s, t);
    MadeAreManaged(s, t);
    MadeUsers(s, t);
    hide IsEntitled, IsOwner, IsMade, IsManaged, User, Str, GrantKey;
    if OwnersGrantsStand(s, t) {
      forall k | IsMade(s, t, k) && s[k].deleting
        ensures !IsEntitled(s, t, Str(s[k].body, ["userName"]))
      {
        assert k == GrantKey(t, User(s[k]));
      }
    }
    if NoneReturning(s, t) {
      forall u | IsOwner(s, t, u) && GrantKey(t, u) in s
        ensures !s[GrantKey(t, u)].deleting
      {
        var k := GrantKey(t, u);
        assert IsMade(s, t, k) && k == GrantKey(t, User(s[k]));
        GrantKeysDiffer(t, u, User(s[k]));
        assert IsEntitled(s, t, Str(s[k].body, ["userName"]));
      }
    }
  }

  lemma MadeUsers(s: Store, t: Target)
    ensures forall k | k in s :: User(s[k]) == Str(s[k].body, ["userName"])
    ensures forall k | IsMade(s, t, k) :: k in s
  {
  }

  /** A pass with nothing in between, none of whose calls fails: without complete labels it makes no call; otherwise it
      ends without an error if and only if the cluster can be served, and then exactly those whom a binding entitled
      own the cluster if and only if none of these had an old grant still going. */
  lemma PassServes(s: Store, t: Target, run: seq<Action>, err: Option<Error>)
    requires WellNamed(s, t) && NoLeftovers(s)
    requires Walk(Pass(t), Start(t), run, Finished(err)) && Possible(s, run) && FaultFree(run)
    ensures !Placed(t) ==> run == [] && err == None
    ensures Placed(t) ==> (err == None <==> CanBeServed(s, t))
    ensures Placed(t) && err == None ==>
      ((forall u :: Owns(After(s, run), t, u) <==> IsEntitled(s, t, u)) <==> NoneReturning(s, t))
  {
    PlacedStarts(t);
    hide Follows, Reached, Owns, IsEntitled, CanBeServed, NoneReturning, WellNamed, NoLeftovers, Start, Placed, Possible;
    if Placed(t) {
      PlacedPassServes(s, t, run, err);
    } else {
      WalkEnds(Pass(t), DONE, run, Finished(err)) by { FinishedAsksNothing(t, None); }
    }
  }

  lemma PlacedPassServes(s: Store, t: Target, run: seq<Action>, err: Option<Error>)
    requires Placed(t) && WellNamed(s, t) && NoLeftovers(s)
    requires Walk(Pass(t), ProjectGet, run, Finished(err)) && Possible(s, run) && FaultFree(run)
    ensures err == None <==> CanBeServed(s, t)
    ensures err == None ==>
      ((forall u :: Owns(After(s, run), t, u) <==> IsEntitled(s, t, u)) <==> NoneReturning(s, t))
  {
    PassSettlesAlone(s, t, run, err);
    OrderMeans(s, t);
    ServedMeans(s, After(s, run), t);
    StandingMeansNoneReturning(s, t);
    hide Walk, Possible, After, FaultFree, InOrder, OwnersServed, OwnersGrantsStand, CanBeServed, NoneReturning, Owns,
      IsEntitled, WellNamed, NoLeftovers;
  }

  lemma OrderMeans(s: Store, t: Target)
    requires Placed(t)
    ensures InOrder(s, t) <==> CanBeServed(s, t)
  {
    EntitledAreOwners(s, t);
    MadeAreManaged(s, t);
    hide SourcesHaveUsers, ManagedHaveUsers, IsEntitled, IsOwner, Owns, HasBinding, IsManaged, IsMade, Counts, Str;
  }

  lemma ServedMeans(s: Store, s': Store, t: Target)
    requires Placed(t)
    ensures OwnersServed(s, s', t) <==> forall u :: Owns(s', t, u) <==> IsEntitled(s, t, u)
  {
    EntitledAreOwners(s, t);
    MadeAreManaged(s', t);
    hide SourcesHaveUsers, ManagedHaveUsers, IsEntitled, IsOwner, Owns, HasBinding, IsManaged, IsMade, Counts, Str;
  }

  lemma PassSettlesAlone(s: Store, t: Target, run: seq<Action>, err: Option<Error>)
    requires WellNamed(s, t) && NoLeftovers(s)
    requires Walk(Pass(t), ProjectGet, run, Finished(err)) && Possible(s, run) && FaultFree(run)
    ensures err == None <==> InOrder(s, t)
    ensures err == None ==> (OwnersServed(s, After(s, run), t) <==> OwnersGrantsStand(s, t))
  {
    var w, events := World(s, map[t.name := ProjectGet]), CallsOf(t, run);
    AloneFromStart(s, t, run);
    hide Inv, Ran, End, FaultFreePass, Walk, Possible, After, FaultFree, OwnersGrantsStand, OwnersServed, InOrder,
      WellNamed, NoLeftovers, Writes, CallsOf;
    EndsAlone(s, t, run, err);
    FaultFreePassSettles(One(t), w, events, t.name, []);
  }

  lemma AloneFromStart(s: Store, t: Target, run: seq<Action>)
    requires WellNamed(s, t) && NoLeftovers(s)
    requires Follows(Pass(t), ProjectGet, run) && Possible(s, run) && FaultFree(run)
    ensures var w := World(s, map[t.name := ProjectGet]);
      && Inv(One(t), w) && Ran(One(t), w, CallsOf(t, run)) && FaultFreePass(CallsOf(t, run), t.name)
      && Ran(One(t), End(One(t), w, CallsOf(t, run)), [])
      && PassOf(w, t.name) == ProjectGet
      && End(One(t), w, CallsOf(t, run)) == World(After(s, run), map[t.name := Reached(Pass(t), ProjectGet, run)])
  {
    PassIsRun(s, t, run);
    hide WellNamed, NoLeftovers, Follows, Reached, Possible, After, Ran, End;
    RanNothing(One(t), End(One(t), World(s, map[t.name := ProjectGet]), CallsOf(t, run)));
  }

  lemma EndsAlone(s: Store, t: Target, run: seq<Action>, err: Option<Error>)
    requires Walk(Pass(t), ProjectGet, run, Finished(err)) && Possible(s, run)
    requires WellNamed(s, t) && NoLeftovers(s) && FaultFree(run)
    ensures var w := World(s, map[t.name := ProjectGet]);
      && Ran(One(t), w, CallsOf(t, run)) && PassOf(End(One(t), w, CallsOf(t, run)), t.name) == Finished(err)
      && End(One(t), w, CallsOf(t, run)).store == After(s, run)
  {
    AloneFromStart(s, t, run);
    hide WellNamed, NoLeftovers, Follows, Reached, Possible, After, FaultFree, Ran, End, CallsOf;
  }

  lemma RanNothing(ts: Targets, w: World)
    ensures Ran(ts, w, [])
  {
  }
}
