/** What users of the operator rely on: a service that goes loses its cluster, a service that comes gets one and an
    agent in it, and nothing that failed is reported as a success. */
module Promises {
  import opened Text
  import opened Api
  import opened Calls
  import opened Constants
  import opened Config
  import opened Errors
  import opened Naming
  import opened HandlerProgram
  import opened HandlerFacts
  import opened Outcomes
  import opened Reconciles
  import Finalizers

  /** A reconcile from its first call to its end in which no call fails, with nobody acting in between. */
  ghost predicate Undisturbed(h: Host, item: Item, cached: Cached, s: Store, run: seq<Action>, err: Option<Error>) {
    Walk(Worker(h), Start(item, cached), run, Finished(err)) && Possible(s, run) && FaultFree(run)
  }

  // ---- a service goes ----

  /** The item is of a service with this UID that is being deleted, or is no longer in the cache. */
  predicate IsOfGoing(item: Item, cached: Cached, uid: string) {
    || (cached.Found? && cached.svc.deleting && cached.svc.uid == uid)
    || (cached.Missing? && item.uid == uid && uid != "")
  }

  /** There is no other cluster of the service. */
  ghost predicate IsOnlyFor(s: Store, k: Key, kind: Kind, uid: string) {
    IsFor(s, k, kind, uid) && forall j | IsFor(s, j, kind, uid) :: j == k
  }

  /** A service that is being deleted or gone loses its provisioning cluster, if that is on this host; without one
      nothing changes. */
  lemma GoingServiceLosesItsCluster(h: Host, item: Item, cached: Cached, uid: string, s: Store, run: seq<Action>,
                                    err: Option<Error>)
    requires IsOfGoing(item, cached, uid) && Undisturbed(h, item, cached, s, run, err)
    ensures err == None
    ensures (forall k :: !IsFor(s, k, ProvisioningCluster, uid)) ==> After(s, run) == s
    ensures forall k | IsOnlyFor(s, k, ProvisioningCluster, uid) && IsOnHost(s, k, h.name) ::
      After(s, run) == Stored(s, k, s[k].(deleting := true))
    ensures (forall k | IsFor(s, k, ProvisioningCluster, uid) :: !IsOnHost(s, k, h.name)) ==> After(s, run) == s
  {
    ReconcileComesTo(h, item, cached, s, run, err);
    hide Undisturbed, After, IsFor, IsOnHost, AskedToGo;
    CleanedUpMeans(h.name, uid, s, After(s, run), err);
  }

  lemma CleanedUpMeans(host: string, uid: string, s: Store, s': Store, err: Option<Error>)
    requires CleanedUp(host, uid, s, s', err)
    ensures (forall k | IsFor(s, k, ProvisioningCluster, uid) :: !IsOnHost(s, k, host)) ==> s' == s
    ensures forall k | IsOnlyFor(s, k, ProvisioningCluster, uid) && IsOnHost(s, k, host) ::
      s' == Stored(s, k, s[k].(deleting := true))
  {
    hide IsOnHost;
    if !HasFor(s, ProvisioningCluster, uid) {
      assert forall k :: !IsFor(s, k, ProvisioningCluster, uid);
    } else {
      var k :| IsFor(s, k, ProvisioningCluster, uid) && WentIfHere(host, s, s', k);
      AskedIsStored(s, s', k);
      if !IsOnHost(s, k, host) {
        SameStore(s, s', k);
      }
    }
  }

  lemma SameStore(s: Store, s': Store, k: Key)
    requires Unchanged(s, s', k) && forall j | j != k :: Unchanged(s, s', j)
    ensures s' == s
  {
    forall j
      ensures j in s' <==> j in s
      ensures j in s ==> s'[j] == s[j]
    {
      assert j == k || Unchanged(s, s', j);
    }
    assert s'.Keys == s.Keys;
  }

  lemma AskedIsStored(s: Store, s': Store, k: Key)
    requires k in s && forall j | j != k :: Unchanged(s, s', j)
    ensures AskedToGo(s, s', k) ==> s' == Stored(s, k, s[k].(deleting := true))
  {
    if AskedToGo(s, s', k) {
      var to := Stored(s, k, s[k].(deleting := true));
      forall j
        ensures j in s' <==> j in to
        ensures j in s' ==> s'[j] == to[j]
      {
        assert j != k ==> Unchanged(s, s', j);
      }
      assert s'.Keys == to.Keys;
    }
  }

  // ---- a service gets its agent ----

  /** There is a new install job, under a key that was free or was a failed job's. */
  ghost predicate HasNewJob(host: string, namespace: string, s: Store, s': Store) {
    exists k :: IsInstallJob(s', k, host, namespace) && IsNew(s'[k], map[LABEL_INSTALL_JOB := "true"])
                && (k in s ==> IsFailedJob(s, k, host, namespace))
  }

  /** Every install job was there before. */
  ghost predicate NoNewJob(host: string, namespace: string, s: Store, s': Store) {
    forall k | IsInstallJob(s', k, host, namespace) :: IsInstallJob(s, k, host, namespace)
  }

  /** Without an agent there, a new install job is made if no install job is running or done; the one exception is that
      the server may draw a name that is taken, which is an error. With one running or done, none is made. */
  ghost predicate JobAsNeeded(host: string, namespace: string, s: Store, s': Store, err: Option<Error>) {
    if exists k :: IsSettledJob(s, k, host, namespace) then NoNewJob(host, namespace, s, s')
    else
      || (err == None && HasNewJob(host, namespace, s, s'))
      || (Errs(err) && NoNewJob(host, namespace, s, s') && exists k :: IsJobKey(k, host, namespace) && k in s)
  }

  lemma NoneNewWhenTidied(host: string, namespace: string, s: Store, s': Store)
    requires Tidied(host, namespace, s, s')
    ensures NoNewJob(host, namespace, s, s')
  {
    forall k | IsInstallJob(s', k, host, namespace)
      ensures IsInstallJob(s, k, host, namespace)
    {
      assert Unchanged(s, s', k) || (IsFailedJob(s, k, host, namespace) && AskedToGo(s, s', k));
    }
  }

  lemma JobIsMade(host: string, namespace: string, s: Store, mid: Store, s': Store, err: Option<Error>)
    requires AllTidied(host, namespace, s, mid) && JobMade(host, namespace, mid, s', err)
    ensures (err == None && HasNewJob(host, namespace, s, s'))
         || (Errs(err) && NoNewJob(host, namespace, s, s') && exists k :: IsJobKey(k, host, namespace) && k in s)
  {
    if err == None {
      var k, obj :| IsJobKey(k, host, namespace) && k !in mid && IsNew(obj, map[LABEL_INSTALL_JOB := "true"])
        && s' == mid[k := obj];
      assert if IsFailedJob(s, k, host, namespace) then AskedToGo(s, mid, k) else Unchanged(s, mid, k);
      assert IsInstallJob(s', k, host, namespace);
    } else {
      assert Tidied(host, namespace, s, mid);
      NoneNewWhenTidied(host, namespace, s, mid);
      var k :| IsJobKey(k, host, namespace) && k in mid;
      assert if IsFailedJob(s, k, host, namespace) then AskedToGo(s, mid, k) else Unchanged(s, mid, k);
    }
  }

  lemma AgentMeansJob(host: string, namespace: string, s: Store, s': Store, err: Option<Error>)
    requires AgentEnsured(host, namespace, s, s', err) && forall k :: !IsAgent(s, k, host, namespace)
    ensures JobAsNeeded(host, namespace, s, s', err)
  {
    hide Tidied, AllTidied, JobMade, NoNewJob, HasNewJob, IsSettledJob, Errs;
    if exists k :: IsSettledJob(s, k, host, namespace) {
      NoneNewWhenTidied(host, namespace, s, s');
    } else {
      var mid :| AllTidied(host, namespace, s, mid) && JobMade(host, namespace, mid, s', err);
      JobIsMade(host, namespace, s, mid, s', err);
    }
  }

  /** The install part of a reconcile, in a namespace without an agent. */
  lemma InstallMakesJob(h: Host, svc: Service, s: Store, run: seq<Action>, err: Option<Error>)
    requires Walk(Worker(h), PodList(svc), run, Finished(err)) && Possible(s, run) && FaultFree(run)
    requires forall k :: !IsAgent(s, k, h.name, svc.namespace)
    ensures JobAsNeeded(h.name, svc.namespace, s, After(s, run), err)
  {
    AgentGoes(h, svc, s, run, err, After(s, run));
    hide Walk, Possible, FaultFree, After, AgentEnsured, IsAgent;
    AgentMeansJob(h.name, svc.namespace, s, After(s, run), err);
  }

  /** The store has all that the service's agent waits for: namespace, clusters, token and secret. */
  ghost predicate IsReadyForAgent(host: string, svc: Service, s: Store) {
    && Key(host, NamespaceKind, "", svc.namespace) in s
    && HasFor(s, ProvisioningCluster, svc.uid) && HasFor(s, ManagementCluster, svc.uid)
    && forall k | IsFor(s, k, ManagementCluster, svc.uid) :: CanInstall(host, svc, false, s, k.name)
  }

  /** A whole reconcile of a service that has all its agent waits for. */
  lemma ServiceGetsItsAgent(h: Host, item: Item, svc: Service, s: Store, run: seq<Action>, err: Option<Error>)
    requires !svc.deleting && IsImported(svc) && IsReadyForAgent(h.name, svc, s)
    requires Undisturbed(h, item, Found(svc), s, run, err)
    requires forall k :: !IsAgent(s, k, h.name, svc.namespace)
    ensures JobAsNeeded(h.name, svc.namespace, s, After(s, run), err)
  {
    ReconcileComesTo(h, item, Found(svc), s, run, err);
    var s' := After(s, run);
    hide Undisturbed, After, Installed, IsImported, IsAgent, JobAsNeeded, IsFor;
    var mid, ready :| Ensured(h.config, h.name, svc, s, mid, ready)
      && Installed(h.config, h.name, svc, ready, mid, s', err);
    ReadyGetsJob(h.config, h.name, svc, ready, s, s', err);
  }

  lemma ReadyGetsJob(c: Config, host: string, svc: Service, ready: bool, s: Store, s': Store, err: Option<Error>)
    requires Installed(c, host, svc, ready, s, s', err) && IsReadyForAgent(host, svc, s)
    requires forall k :: !IsAgent(s, k, host, svc.namespace)
    ensures JobAsNeeded(host, svc.namespace, s, s', err)
  {
    hide ManagementEdited, AgentEnsured, IsFor, IsAgent, JobAsNeeded;
    forall k, mid | ManagementEdited(c, svc, ready, s, mid, k)
      ensures CanInstall(host, svc, ready, s, k.name)
    {
      EditedIsFor(c, svc, ready, s, mid, k);
    }
    var mid :| ResourcesThere(c, host, svc, ready, s, mid) && AgentEnsured(host, svc.namespace, mid, s', err);
    SameJobs(c, host, svc, ready, s, mid);
    AgentMeansJob(host, svc.namespace, mid, s', err);
    JobsAlike(host, svc.namespace, s, mid, s', err);
  }

  lemma EditedIsFor(c: Config, svc: Service, ready: bool, s: Store, mid: Store, k: Key)
    requires ManagementEdited(c, svc, ready, s, mid, k)
    ensures IsFor(s, k, ManagementCluster, svc.uid) && k.kind == ManagementCluster
    ensures forall j | j != k :: Unchanged(s, mid, j)
  {
    hide Edited;
  }

  lemma SameJobs(c: Config, host: string, svc: Service, ready: bool, s: Store, mid: Store)
    requires ResourcesThere(c, host, svc, ready, s, mid)
    ensures forall k: Key | k.kind != ManagementCluster :: Unchanged(s, mid, k)
    ensures forall k :: IsAgent(s, k, host, svc.namespace) <==> IsAgent(mid, k, host, svc.namespace)
  {
    hide ManagementEdited, CanInstall;
    var k :| ManagementEdited(c, svc, ready, s, mid, k) && CanInstall(host, svc, ready, s, k.name);
    EditedIsFor(c, svc, ready, s, mid, k);
    forall j
      ensures IsAgent(s, j, host, svc.namespace) <==> IsAgent(mid, j, host, svc.namespace)
    {
      assert j.kind != ManagementCluster ==> Unchanged(s, mid, j);
    }
  }

  lemma JobsAlike(host: string, namespace: string, s: Store, mid: Store, s': Store, err: Option<Error>)
    requires (forall k: Key | k.kind != ManagementCluster :: Unchanged(s, mid, k))
    requires JobAsNeeded(host, namespace, mid, s', err)
    ensures JobAsNeeded(host, namespace, s, s', err)
  {
    forall k
      ensures IsInstallJob(s, k, host, namespace) <==> IsInstallJob(mid, k, host, namespace)
      ensures IsFailedJob(s, k, host, namespace) <==> IsFailedJob(mid, k, host, namespace)
      ensures IsSettledJob(s, k, host, namespace) <==> IsSettledJob(mid, k, host, namespace)
      ensures k.kind == JobKind ==> (k in s <==> k in mid)
    {
      assert k.kind != ManagementCluster ==> Unchanged(s, mid, k);
    }
    hide IsFailedJob, IsSettledJob, IsNew, Counts, Errs, Unchanged;
  }

  // ---- a service gets its cluster ----

  /** There is a place for a cluster with these labels. */
  predicate HasPlaceFor(c: Config, s: Store, labels: Labels) {
    WorkspaceFor(c, labels) in s || c.fleetAutoCreate
  }

  /** A cluster with these labels was made in their workspace, under a name that the service may have, unless that name
      was taken. */
  ghost predicate GotCluster(c: Config, host: string, svc: Service, labels: Labels, s: Store, s': Store) {
    exists name :: MayBeNamed(host, svc, name) &&
      GotUnder(Key(LOCAL, ProvisioningCluster, WorkspaceFor(c, labels).name, name), labels, s, s')
  }

  predicate GotUnder(key: Key, labels: Labels, s: Store, s': Store) {
    if key in s then Unchanged(s, s', key) else key in s' && IsNew(s'[key], labels)
  }

  /** What follows the making of a cluster leaves it as it is. */
  lemma InstallingKeepsClusters(c: Config, host: string, svc: Service, ready: bool, s: Store, s': Store,
                                err: Option<Error>)
    requires Installed(c, host, svc, ready, s, s', err)
    ensures forall k: Key | k.kind == ProvisioningCluster :: Unchanged(s, s', k)
  {
    hide ManagementEdited, AgentEnsured, CanInstall, Unchanged;
    if ResourcesPending(c, host, svc, ready, s, s') && Waits(err) {
      if k :| ManagementEdited(c, svc, ready, s, s', k) {
        EditedIsFor(c, svc, ready, s, s', k);
      } else {
        SameUnchanged(s, s');
      }
    } else {
      var mid :| ResourcesThere(c, host, svc, ready, s, mid) && AgentEnsured(host, svc.namespace, mid, s', err);
      SameJobs(c, host, svc, ready, s, mid);
      AgentKeepsClusters(host, svc.namespace, mid, s', err);
      UnchangedTwice(s, mid, s');
    }
  }

  lemma SameUnchanged(s: Store, s': Store)
    ensures s' == s ==> forall k :: Unchanged(s, s', k)
  {
  }

  lemma UnchangedTwice(s: Store, mid: Store, s': Store)
    ensures forall k | Unchanged(s, mid, k) && Unchanged(mid, s', k) :: Unchanged(s, s', k)
  {
  }

  lemma AgentKeepsClusters(host: string, namespace: string, s: Store, s': Store, err: Option<Error>)
    requires AgentEnsured(host, namespace, s, s', err)
    ensures forall k: Key | k.kind == ProvisioningCluster :: Unchanged(s, s', k)
  {
    hide IsAgent, IsSettledJob, Tidied, AllTidied, JobMade, SettledAs;
    if exists k :: IsAgent(s, k, host, namespace) {
      SameUnchanged(s, s');
    } else if exists k :: IsSettledJob(s, k, host, namespace) {
      OnlyJobsTidied(host, namespace, s, s');
    } else {
      var mid :| AllTidied(host, namespace, s, mid) && JobMade(host, namespace, mid, s', err);
      OnlyJobsTidied(host, namespace, s, mid);
      OnlyJobMade(host, namespace, mid, s', err);
      UnchangedTwice(s, mid, s');
    }
  }

  lemma OnlyJobsTidied(host: string, namespace: string, s: Store, s': Store)
    requires Tidied(host, namespace, s, s') || AllTidied(host, namespace, s, s')
    ensures forall k: Key | k.kind != JobKind :: Unchanged(s, s', k)
  {
    forall k: Key | k.kind != JobKind
      ensures Unchanged(s, s', k)
    {
      assert !IsFailedJob(s, k, host, namespace);
    }
  }

  lemma OnlyJobMade(host: string, namespace: string, s: Store, s': Store, err: Option<Error>)
    requires JobMade(host, namespace, s, s', err)
    ensures forall k: Key | k.kind != JobKind :: Unchanged(s, s', k)
  {
    hide IsNew;
  }

  /** A service that is imported and has no cluster gets one with the labels of its project, in the workspace configured
      for that, under the name its annotations ask for: unless there is no place for it, or the name is refused or
      taken. */
  lemma ServiceGetsItsCluster(h: Host, item: Item, svc: Service, labels: Labels, s: Store, run: seq<Action>,
                              err: Option<Error>)
    requires !svc.deleting && IsImported(svc) && forall k :: !IsFor(s, k, ProvisioningCluster, svc.uid)
    requires LabelsFrom(h.name, svc, s, labels) && HasPlaceFor(h.config, s, labels)
    requires exists name :: MayBeNamed(h.name, svc, name)
    requires Undisturbed(h, item, Found(svc), s, run, err)
    ensures GotCluster(h.config, h.name, svc, labels, s, After(s, run))
  {
    ReconcileComesTo(h, item, Found(svc), s, run, err);
    hide Undisturbed, After, Deployed, LabelsFrom, MayBeNamed, IsFor, GotCluster;
    DeployedGetsCluster(h.config, h.name, svc, labels, s, After(s, run), err);
  }

  lemma DeployedGetsCluster(c: Config, host: string, svc: Service, labels: Labels, s: Store, s': Store,
                            err: Option<Error>)
    requires IsImported(svc) && Deployed(c, host, svc, s, s', err)
    requires forall k :: !IsFor(s, k, ProvisioningCluster, svc.uid)
    requires LabelsFrom(host, svc, s, labels) && HasPlaceFor(c, s, labels) && exists name :: MayBeNamed(host, svc, name)
    ensures GotCluster(c, host, svc, labels, s, s')
  {
    assert Key(host, NamespaceKind, "", svc.namespace) in s;
    OneSetOfLabels(host, svc, s, labels);
    hide Installed, IsImported, LabelsFrom, MayBeNamed, IsFor, WorkspaceEnsured, ClusterMade, GotCluster, WorkspaceFor;
    var mid, ready :| Ensured(c, host, svc, s, mid, ready) && Installed(c, host, svc, ready, mid, s', err);
    var made, bare :| NewlyMade(c, host, svc, made, s, bare, mid);
    InstallingKeepsClusters(c, host, svc, ready, mid, s', err);
    MadeIsGot(c, host, svc, labels, s, bare, mid, s');
  }

  lemma OneSetOfLabels(host: string, svc: Service, s: Store, labels: Labels)
    requires LabelsFrom(host, svc, s, labels)
    ensures forall other | LabelsFrom(host, svc, s, other) :: other == labels
  {
  }

  lemma MadeIsGot(c: Config, host: string, svc: Service, labels: Labels, s: Store, bare: Store, mid: Store, s': Store)
    requires WorkspaceEnsured(c, WorkspaceFor(c, labels), s, bare)
    requires ClusterMade(host, svc, labels, WorkspaceFor(c, labels).name, bare, mid)
    requires forall k: Key | k.kind == ProvisioningCluster :: Unchanged(mid, s', k)
    ensures GotCluster(c, host, svc, labels, s, s')
  {
    hide MayBeNamed, IsNew;
    var name :| MayBeNamed(host, svc, name)
      && MadeUnder(Key(LOCAL, ProvisioningCluster, WorkspaceFor(c, labels).name, name), labels, bare, mid);
    var key := Key(LOCAL, ProvisioningCluster, WorkspaceFor(c, labels).name, name);
    assert Unchanged(mid, s', key);
    assert key in bare <==> key in s;
    assert GotUnder(key, labels, s, s');
  }

  // ---- failures ----

  /** The reply lets the worker go on: all went well, or a workspace was missing, or an object of that name was there
      already where that is all that matters. */
  predicate LetsGoOn(a: Action) {
    match a
    case Get(key, got) => got.Ok? || (got.NotFound? && key.kind == FleetWorkspace)
    case List(_, items) => items.Ok?
    case Create(key, _, _, done) => done.Ok? || (done.AlreadyExists? && key.kind != JobKind)
    case Delete(_, _, done) => done.Ok?
    case Patch(_, _, _, done) => done.Ok?
  }

  lemma FailureEnds(h: Host, pc: Pc, a: Action)
    requires Answers(Asks(h, pc), a) && !LetsGoOn(a)
    ensures Next(h, pc, a).Finished? && Next(h, pc, a).err.Some?
  {
    hide JobScan, AfterWorkspace, AfterProject, MgmtChange, BaseLabels;
  }

  /** Whatever the servers reply: the first call that does not go well is the last, and the reconcile ends with an
      error. So a success means that every call went well. */
  lemma {:induction false} NoFailureIsASuccess(h: Host, pc: Pc, run: seq<Action>, err: Option<Error>)
    requires Walk(Worker(h), pc, run, Finished(err))
    ensures forall i | 0 <= i < |run| && !LetsGoOn(run[i]) :: i == |run| - 1 && err.Some?
    decreases |run|
  {
    hide Follows, Reached, Next, Asks, LetsGoOn;
    if run != [] {
      WalkFirst(Worker(h), pc, run, Finished(err));
      var to := Next(h, pc, run[0]);
      if LetsGoOn(run[0]) {
        NoFailureIsASuccess(h, to, run[1..], err);
        assert forall i | 1 <= i < |run| :: run[i] == run[1..][i - 1];
      } else {
        FailureEnds(h, pc, run[0]);
        WalkEnds(Worker(h), to, run[1..], Finished(err)) by { FinishedAsksNothing(h); }
      }
    }
  }

  // ---- reconciles without failures ----

  /** The server takes the edits of the service's management clusters: none is being deleted that would have to be given
      the operator's finalizer anew. */
  ghost predicate TakesEdits(svc: Service, s: Store) {
    forall k | IsFor(s, k, ManagementCluster, svc.uid) ::
      s[k].deleting && Lookup(svc.annotations, ANNOTATION_UNINSTALL) == "true" ==> FINALIZER_APP in s[k].finalizers
  }

  predicate BeforeEdit(pc: Pc) {
    pc.NamespaceGet? || pc.ClusterList? || pc.ProjectGet? || pc.WorkspaceGet? || pc.WorkspaceCreate? || pc.ClusterCreate?
    || pc.MgmtList?
  }

  /** A worker at `pc` has nothing ahead of it that a server would refuse. */
  ghost predicate Unrefused(pc: Pc, s: Store) {
    && (BeforeEdit(pc) ==> TakesEdits(pc.svc, s))
    && (pc.MgmtPatch? && pc.key in s ==> Admits(s[pc.key], pc.change))
    && (pc.JobDelete? ==> pc.jobs != [])
  }

  lemma SomeReply(h: Host, pc: Pc, s: Store) returns (a: Action)
    requires !pc.Finished? && Unrefused(pc, s)
    ensures Answers(Asks(h, pc), a) && Enabled(s, a) && !IsFault(a)
  {
    hide IsListing, TakesEdits, Admits, AgentPods, InstallJobs;
    match Asks(h, pc)
    case AskGet(key) => a := Action.Get(key, if key in s then Ok(s[key]) else NotFound);
    case AskList(query) =>
      var items := SomeListing(s, query);
      a := Action.List(query, Ok(items));
    case AskCreate(cluster, kind, name, genName, namespace, labels, body) =>
      var key := Key(cluster, kind, namespace, if genName then Truncated(name) + "aaaaa" else name);
      a := Action.Create(key, Object("", labels, [], false, body), key !in s, if key in s then AlreadyExists else Ok(()));
    case AskDelete(key) => a := Action.Delete(key, key in s, if key in s then Ok(()) else NotFound);
    case AskPatch(key, change) => a := Action.Patch(key, change, key in s, if key in s then Ok(()) else NotFound);
  }

  lemma SameEdits(h: Host, pc: Pc, s: Store, a: Action)
    requires BeforeEdit(pc) && TakesEdits(pc.svc, s) && Answers(Asks(h, pc), a) && Enabled(s, a)
    ensures TakesEdits(pc.svc, Apply(s, a))
  {
    forall k | IsFor(Apply(s, a), k, ManagementCluster, pc.svc.uid)
      ensures IsFor(s, k, ManagementCluster, pc.svc.uid) && s[k] == Apply(s, a)[k]
    {
    }
  }

  lemma StaysUnrefused(h: Host, pc: Pc, s: Store, a: Action)
    requires Unrefused(pc, s) && Answers(Asks(h, pc), a) && Enabled(s, a) && !IsFault(a)
    ensures Unrefused(Next(h, pc, a), Apply(s, a))
  {
    hide TakesEdits, Admits, Asks, Next, Answers, Enabled, Apply, IsFault;
    if pc.MgmtList? {
      var k := MgmtListed(h, pc.svc, pc.ready, s, a);
      if HasFor(s, ManagementCluster, pc.svc.uid) {
        EditIsTaken(h, pc.svc, pc.ready, s, k);
      }
    } else if BeforeEdit(pc) {
      SameEdits(h, pc, s, a);
      StaysBeforeEdit(h, pc, a);
    } else {
      PastEdit(h, pc, a);
    }
  }

  lemma EditIsTaken(h: Host, svc: Service, ready: bool, s: Store, k: Key)
    requires TakesEdits(svc, s) && IsFor(s, k, ManagementCluster, svc.uid)
    ensures Admits(s[k], MgmtChange(h, svc, ready, s[k]))
  {
    Finalizers.AdmittedExactly(h, svc, ready, s[k]);
    hide Admits, MgmtChange;
  }

  lemma StaysBeforeEdit(h: Host, pc: Pc, a: Action)
    requires BeforeEdit(pc) && !pc.MgmtList? && Answers(Asks(h, pc), a)
    ensures var to := Next(h, pc, a); to.Finished? || (BeforeEdit(to) && to.svc == pc.svc)
  {
    hide BaseLabels, GetTargetClusterNamespace, GetProvisioningClusterName;
  }

  lemma PastEdit(h: Host, pc: Pc, a: Action)
    requires !BeforeEdit(pc) && Answers(Asks(h, pc), a)
    ensures var to := Next(h, pc, a); !BeforeEdit(to) && !to.MgmtPatch? && (to.JobDelete? ==> to.jobs != [])
  {
    hide JobScan;
    if pc.JobList? && a.items.Ok? {
      ScanTargets(pc.svc, a.items.value);
    } else if pc.JobDelete? {
      ScanTargets(pc.svc, pc.jobs[1..]);
    }
  }

  // ---- and reconciles end ----

  function Stage(pc: Pc): nat {
    match pc
    case NamespaceGet(_) => 14
    case ClusterList(_, _) => 13
    case ProjectGet(_, _) => 12
    case WorkspaceGet(_, _, _) => 11
    case WorkspaceCreate(_, _, _) => 10
    case ClusterCreate(_, _, _, _) => 9
    case MgmtList(_, _) => 8
    case MgmtPatch(_, _, _, _) => 7
    case TokenGet(_, _) => 6
    case SecretGet(_) => 5
    case PodList(_) => 4
    case JobList(_) => 3
    case JobDelete(_, _) => 2
    case CleanupList(_) => 2
    case JobCreate(_) => 1
    case CleanupDelete(_, _) => 1
    case Finished(_) => 0
  }

  /** The jobs that are still to be looked at. */
  function JobsAhead(pc: Pc): nat {
    if pc.JobDelete? then |pc.jobs| else 0
  }

  lemma {:induction false} ScanGoesAhead(svc: Service, jobs: seq<Entry>)
    ensures var to := JobScan(svc, jobs); Stage(to) <= 2 && JobsAhead(to) <= |jobs|
    decreases |jobs|
  {
    if jobs != [] {
      ScanGoesAhead(svc, jobs[1..]);
    }
  }

  /** Every call takes the worker nearer to its end, whatever the reply: a reconcile cannot go on for ever. */
  lemma EveryCallCounts(h: Host, pc: Pc, a: Action)
    requires Answers(Asks(h, pc), a)
    ensures var to := Next(h, pc, a);
      Stage(to) < Stage(pc) || (Stage(to) == Stage(pc) && JobsAhead(to) < JobsAhead(pc))
  {
    hide JobScan, JobsAhead, AgentPods, InstallJobs, BaseLabels, MgmtChange, GetProvisioningClusterName;
    if pc.JobList? && a.items.Ok? {
      ScanGoesAhead(pc.svc, a.items.value);
    } else if pc.JobDelete? {
      DeletesGoAhead(h, pc, a);
    }
  }

  lemma DeletesGoAhead(h: Host, pc: Pc, a: Action)
    requires pc.JobDelete? && Answers(Asks(h, pc), a)
    ensures var to := Next(h, pc, a);
      Stage(to) < Stage(pc) || (Stage(to) == Stage(pc) && JobsAhead(to) < JobsAhead(pc))
  {
    hide JobScan;
    ScanGoesAhead(pc.svc, pc.jobs[1..]);
  }

  lemma {:induction false} CanGoOn(h: Host, start: Pc, s: Store, before: seq<Action>)
    returns (run: seq<Action>, err: Option<Error>)
    requires Follows(Worker(h), start, before) && Possible(s, before) && FaultFree(before)
    requires Unrefused(Reached(Worker(h), start, before), After(s, before))
    ensures Walk(Worker(h), start, run, Finished(err)) && Possible(s, run) && FaultFree(run)
    decreases Stage(Reached(Worker(h), start, before)), JobsAhead(Reached(Worker(h), start, before))
  {
    var pc, now := Reached(Worker(h), start, before), After(s, before);
    if pc.Finished? {
      return before, pc.err;
    }
    hide Asks, Next, Answers, Enabled, Apply, IsFault, Unrefused, Stage, JobsAhead;
    var a := SomeReply(h, pc, now);
    StaysUnrefused(h, pc, now, a);
    EveryCallCounts(h, pc, a);
    WalkOne(Worker(h), start, before, pc, a);
    AfterOne(s, before, a);
    run, err := CanGoOn(h, start, s, before + [a]);
  }

  /** From every store in which the service's management clusters take their edits, a reconcile without failures is
      possible, whatever the cache holds; so the promises above are about something. */
  lemma SomeUndisturbed(h: Host, item: Item, cached: Cached, s: Store) returns (run: seq<Action>, err: Option<Error>)
    requires cached.Found? ==> TakesEdits(cached.svc, s)
    ensures Undisturbed(h, item, cached, s, run, err)
  {
    hide TakesEdits;
    run, err := CanGoOn(h, Start(item, cached), s, []);
  }
}
