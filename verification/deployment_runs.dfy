/** Runs of a deployment from nothing, put together from what hosts, informers, workers and outside parties can do
    one step at a time. They show which promises a setting cannot keep. */
module DeploymentRuns {
  import opened Api
  import opened Calls
  import opened Constants
  import opened Config
  import opened Naming
  import opened HandlerProgram
  import opened Lifecycle
  import opened Safety
  import opened Uniqueness
  import opened Deployment
  import opened Copies

  /** No service has ever been there, no server holds anything, and nothing is going on. */
  const NOTHING := World(map[], map[], {}, map[], map[])

  ghost predicate LeadsBy(st: Setting, w: World, run: seq<Event>, to: World) {
    Ran(st.config, w, run, CopyGuard(st)) && End(st.config, w, run, CopyGuard(st)) == to
  }

  /** A run that keeps to the setting, and in which others only copy labels, leads from `w` to `to`, where the
      setting's invariant holds. */
  ghost predicate Leads(st: Setting, w: World, to: World) {
    InSetting(st, to) && exists run :: LeadsBy(st, w, run, to)
  }

  lemma NothingStarts(st: Setting)
    ensures StartsIn(st, NOTHING) && Leads(st, NOTHING, NOTHING)
  {
    assert StartsIn(st, NOTHING);
    hide StartsIn, InSetting;
    StartsInSetting(st, NOTHING);
    assert LeadsBy(st, NOTHING, [], NOTHING);
  }

  lemma LeadsOn(st: Setting, w: World, mid: World, e: Event) returns (to: World)
    requires Leads(st, w, mid) && Can(st.config, mid, e) && Copying(st, mid, e)
    ensures to == Do(st.config, mid, e) && Leads(st, w, to)
  {
    hide Can, Do, InSetting, KeepsTo, OnlyCopies;
    InSettingKept(st, mid, e);
    to := Do(st.config, mid, e);
    var run :| LeadsBy(st, w, run, mid);
    assert (run + [e])[..|run|] == run;
    assert LeadsBy(st, w, run + [e], to);
  }

  /** What a run leads to is where some run ends. */
  lemma LeadsMeansRun(st: Setting, w: World, to: World) returns (run: seq<Event>)
    requires Leads(st, w, to)
    ensures Ran(st.config, w, run, CopyGuard(st)) && End(st.config, w, run, CopyGuard(st)) == to
    ensures Ran(st.config, w, run, Guard(st)) && End(st.config, w, run, Guard(st)) == to
  {
    hide InSetting;
    run :| LeadsBy(st, w, run, to);
    CopyingRan(st, w, run);
  }

  // ---- what a worker finds on its way to a cluster ----

  function HandlerOf(st: Setting, p: Posted): Host {
    Host(p.at.host, st.config)
  }

  /** A namespace that lies at `spot`. */
  function NamespaceOf(spot: Spot): Object {
    var labels: Labels := match spot.project case Some(project) => map[LABEL_RANCHER_PROJECT := project] case None => map[];
    Object("", labels, [], false, map[])
  }

  /** The labels the service's cluster is created with. */
  function LabelsOf(st: Setting, p: Posted, spot: Spot): Labels {
    var base := BaseLabels(HandlerOf(st, p), p.svc)[LABEL_PROJECT_UID := spot.uid];
    match spot.project
    case Some(project) => base[LABEL_PROJECT_NAME := project]
    case None => base
  }

  /** The server holds the service's namespace, which lies at `spot`, its project and its workspace. */
  predicate HasRooms(st: Setting, s: Store, p: Posted, spot: Spot) {
    && NamespaceKey(HandlerOf(st, p), p.svc) in s && s[NamespaceKey(HandlerOf(st, p), p.svc)] == NamespaceOf(spot)
    && (spot.project.Some? ==>
          var project := ProjectKey(HandlerOf(st, p), spot.project.value); project in s && s[project].uid == spot.uid)
    && WorkspaceKey(WorkspaceAt(st, spot)) in s
  }

  function WithRooms(st: Setting, s: Store, p: Posted, spot: Spot): Store {
    var bare := Object("", map[], [], false, map[]);
    var s1 := s[NamespaceKey(HandlerOf(st, p), p.svc) := NamespaceOf(spot)];
    var s2 := match spot.project
              case Some(project) => s1[ProjectKey(HandlerOf(st, p), project) := bare.(uid := spot.uid)]
              case None => s1;
    s2[WorkspaceKey(WorkspaceAt(st, spot)) := bare]
  }

  lemma RoomsFit(st: Setting, s: Store, p: Posted, spot: Spot)
    requires MayLie(st, p.at.host, p.svc.namespace, spot) && HomesOk(st, s) && ManagementOk(st, s)
    ensures HomesOk(st, WithRooms(st, s, p, spot)) && ManagementOk(st, WithRooms(st, s, p, spot))
    ensures HasRooms(st, WithRooms(st, s, p, spot), p, spot) && SameClusters(s, WithRooms(st, s, p, spot))
  {
    RoomsAreThere(st, s, p, spot);
    RoomsAreNoClusters(st, s, p, spot);
    hide WithRooms, MayLie, HomeFits, HasRooms;
    forall k | k in WithRooms(st, s, p, spot)
      ensures HomeFits(st, k, WithRooms(st, s, p, spot)[k])
    {
      RoomFits(st, s, p, spot, k);
    }
  }

  lemma RoomsAreThere(st: Setting, s: Store, p: Posted, spot: Spot)
    ensures HasRooms(st, WithRooms(st, s, p, spot), p, spot)
  {
    hide GetTargetClusterNamespace;
  }

  lemma RoomsAreNoClusters(st: Setting, s: Store, p: Posted, spot: Spot)
    requires ManagementOk(st, s)
    ensures SameClusters(s, WithRooms(st, s, p, spot)) && ManagementOk(st, WithRooms(st, s, p, spot))
  {
    hide GetTargetClusterNamespace;
  }

  lemma RoomFits(st: Setting, s: Store, p: Posted, spot: Spot, k: Key)
    requires MayLie(st, p.at.host, p.svc.namespace, spot) && HomesOk(st, s) && k in WithRooms(st, s, p, spot)
    ensures HomeFits(st, k, WithRooms(st, s, p, spot)[k])
  {
    hide GetTargetClusterNamespace;
    assert k in s ==> HomeFits(st, k, s[k]);
  }

  /** The clusters of the store are the same. */
  ghost predicate SameClusters(s: Store, s': Store) {
    forall k: Key | k.kind == ProvisioningCluster || k.kind == ManagementCluster ::
      (k in s <==> k in s') && (k in s ==> s[k] == s'[k])
  }

  lemma SameClustersFor(s: Store, s': Store, k: Key, uid: string)
    requires SameClusters(s, s')
    ensures IsClusterFor(s, k, uid) <==> IsClusterFor(s', k, uid)
  {
  }

  lemma SameCarriers(s: Store, s': Store)
    requires SameClusters(s, s')
    ensures OnlyCopies(s, s')
  {
    forall uid, host | HasCarrier(s', uid, host)
      ensures HasCarrier(s, uid, host)
    {
      var k :| k in s' && Carries(k, s'[k], uid, host);
      assert k in s && Carries(k, s[k], uid, host);
    }
  }

  /** Others see to it that the service's namespace lies at `spot`, moving it there if need be. */
  lemma Furnish(st: Setting, w0: World, w: World, p: Posted, spot: Spot) returns (to: World)
    requires Leads(st, w0, w) && MayLie(st, p.at.host, p.svc.namespace, spot)
    ensures Leads(st, w0, to) && to == w.(store := to.store) && SameClusters(w.store, to.store)
      && HasRooms(st, to.store, p, spot)
  {
    RoomsFit(st, w.store, p, spot);
    hide HomesOk, ManagementOk, HasRooms, WithRooms, MayLie, DataInv, HistoryIn, ClustersIn, TasksApart, SlotIn, LeadsBy,
      IsClusterFor, OnlyCopies;
    var after := WithRooms(st, w.store, p, spot);
    forall k, uid
      ensures OutsideMakesNoClusters(w.store, after, k, uid)
    {
      SameClustersFor(w.store, after, k, uid);
    }
    SameCarriers(w.store, after);
    to := LeadsOn(st, w0, w, Outside(after));
  }

  // ---- a service comes and goes ----

  /** The informer catches up with the host. */
  lemma CatchesUp(st: Setting, w0: World, w: World, k: SvcKey) returns (to: World)
    requires Leads(st, w0, w) && Seen(w, k) < |Hist(w.hist, k)| - 1
    ensures Leads(st, w0, to)
    ensures to == w.(seen := to.seen, tasks := w.tasks + NewTasks(k, Now(w.hist, k)))
    ensures Seen(to, k) == |Hist(w.hist, k)| - 1
  {
    hide Leads;
    to := LeadsOn(st, w0, w, Observe(k, |Hist(w.hist, k)| - 1));
  }

  lemma Appear(st: Setting, w0: World, w: World, p: Posted) returns (to: World)
    requires Leads(st, w0, w) && There(st, p) && MayBecome(w.hist, p.at, Present(p.svc))
    ensures Leads(st, w0, to)
      && to == w.(hist := Grown(w.hist, p.at, Present(p.svc)), seen := to.seen, tasks := to.tasks)
    ensures to.tasks == w.tasks + {Task(p.at, p.svc.uid)} && CacheOf(to, p.at) == Found(p.svc)
  {
    SeenIsThere(st, w, p.at);
    hide Leads, MayBecome, There, InSetting, OnlyCopies, HomesOk, ManagementOk;
    var mid := LeadsOn(st, w0, w, HostChange(p.at, Present(p.svc)));
    to := CatchesUp(st, w0, mid, p.at);
  }

  lemma Vanish(st: Setting, w0: World, w: World, k: SvcKey) returns (to: World)
    requires Leads(st, w0, w) && Hist(w.hist, k) != [] && Now(w.hist, k).Present?
    ensures Leads(st, w0, to) && to == w.(hist := Grown(w.hist, k, Absent), seen := to.seen)
    ensures CacheOf(to, k) == Missing
  {
    SeenIsThere(st, w, k);
    hide Leads, InSetting, OnlyCopies, HomesOk, ManagementOk;
    var mid := LeadsOn(st, w0, w, HostChange(k, Absent));
    to := CatchesUp(st, w0, mid, k);
  }

  lemma SeenIsThere(st: Setting, w: World, k: SvcKey)
    requires InSetting(st, w)
    ensures Seen(w, k) < |Hist(w.hist, k)|
  {
    hide HistoryIn, StoreIn, SlotIn, TasksApart, SlotOk, HistoryOk;
  }

  lemma TakeUp(st: Setting, w0: World, w: World, x: nat, t: Task) returns (to: World)
    requires Leads(st, w0, w) && SlotOf(w, x).Idle? && t in w.tasks
    requires forall y :: SlotOf(w, y).Idle? || SlotOf(w, y).task != t
    ensures Leads(st, w0, to) && to == w.(slots := to.slots)
    ensures SlotOf(to, x) == Working(t, CacheOf(w, t.at), Start(Item(t.at.key, t.uid), CacheOf(w, t.at)))
    ensures forall y | y != x :: SlotOf(to, y) == SlotOf(w, y)
  {
    hide Leads, Start;
    var mid := LeadsOn(st, w0, w, Take(x, t));
    to := LeadsOn(st, w0, mid, Look(x, false));
  }

  lemma MakesCall(st: Setting, w0: World, w: World, x: nat, a: Action) returns (to: World)
    requires Leads(st, w0, w) && SlotOf(w, x).Working? && Enabled(w.store, a)
    requires Answers(Asks(Handles(st.config, SlotOf(w, x).task), SlotOf(w, x).pc), a)
    ensures Leads(st, w0, to) && to == w.(slots := to.slots, store := Apply(w.store, a))
    ensures SlotOf(to, x) ==
      SlotOf(w, x).(pc := HandlerProgram.Next(Handles(st.config, SlotOf(w, x).task), SlotOf(w, x).pc, a))
    ensures forall y | y != x :: SlotOf(to, y) == SlotOf(w, y)
  {
    hide Leads, Asks, Next, Apply, Enabled, Answers;
    to := LeadsOn(st, w0, w, Call(x, a));
  }

  // ---- a worker gives a service its cluster ----

  ghost predicate Placeable(st: Setting, p: Posted, spot: Spot) {
    && Importable(p.svc) && MayLie(st, p.at.host, p.svc.namespace, spot)
    && GetProvisioningClusterName(p.at.host, p.svc).Some?
  }

  /** The service may be given the cluster `key` while its namespace lies at `spot`. */
  ghost predicate FitsAt(st: Setting, p: Posted, spot: Spot, key: Key) {
    && There(st, p) && Placeable(st, p, spot) && key.cluster == LOCAL && key.kind == ProvisioningCluster
    && key.namespace == WorkspaceAt(st, spot) && NameFits(GetProvisioningClusterName(p.at.host, p.svc).value, key.name)
  }

  /** Where the worker is when it creates the service's cluster. */
  ghost function CreatingPc(st: Setting, p: Posted, spot: Spot): Pc
    requires Placeable(st, p, spot)
  {
    ClusterCreate(p.svc, LabelsOf(st, p, spot), WorkspaceAt(st, spot), GetProvisioningClusterName(p.at.host, p.svc).value)
  }

  function WorkspacePc(st: Setting, p: Posted, spot: Spot): Pc {
    WorkspaceGet(p.svc, LabelsOf(st, p, spot), WorkspaceAt(st, spot))
  }

  function NoCluster(p: Posted): Action {
    Action.List(ByServiceUid(ProvisioningCluster, p.svc.uid), Ok([]))
  }

  lemma NamespaceReply(st: Setting, s: Store, p: Posted, spot: Spot, a: Action)
    requires HasRooms(st, s, p, spot) && a == Action.Get(NamespaceKey(HandlerOf(st, p), p.svc), Ok(NamespaceOf(spot)))
    ensures Enabled(s, a) && Apply(s, a) == s && Answers(Asks(HandlerOf(st, p), NamespaceGet(p.svc)), a)
    ensures Next(HandlerOf(st, p), NamespaceGet(p.svc), a) == ClusterList(p.svc, NamespaceOf(spot).labels)
  {
    hide WorkspaceAt;
  }

  lemma NoClusterReply(st: Setting, s: Store, p: Posted, nsLabels: Labels)
    requires forall k :: !IsClusterFor(s, k, p.svc.uid)
    ensures Enabled(s, NoCluster(p)) && Apply(s, NoCluster(p)) == s
    ensures Answers(Asks(HandlerOf(st, p), ClusterList(p.svc, nsLabels)), NoCluster(p))
  {
    forall k | k in s && Matches(ByServiceUid(ProvisioningCluster, p.svc.uid), k, s[k])
      ensures false
    {
      assert IsClusterFor(s, k, p.svc.uid);
    }
  }

  lemma AfterNoCluster(st: Setting, p: Posted, spot: Spot)
    requires MayLie(st, p.at.host, p.svc.namespace, spot)
    ensures var to := Next(HandlerOf(st, p), ClusterList(p.svc, NamespaceOf(spot).labels), NoCluster(p));
      to == if spot.project.Some? then ProjectGet(p.svc, spot.project.value) else WorkspacePc(st, p, spot)
  {
    ProjectLabels(HandlerOf(st, p), p.svc, NO_RANCHER_PROJECT, "");
    hide BaseLabels, GetTargetClusterNamespace, GetProvisioningClusterName, Importable;
  }

  lemma ProjectReply(st: Setting, s: Store, p: Posted, spot: Spot) returns (a: Action)
    requires HasRooms(st, s, p, spot) && spot.project.Some?
    ensures Enabled(s, a) && Apply(s, a) == s
    ensures Answers(Asks(HandlerOf(st, p), ProjectGet(p.svc, spot.project.value)), a)
    ensures Next(HandlerOf(st, p), ProjectGet(p.svc, spot.project.value), a) == WorkspacePc(st, p, spot)
  {
    hide BaseLabels, GetTargetClusterNamespace, GetProvisioningClusterName, Importable;
    var key := ProjectKey(HandlerOf(st, p), spot.project.value);
    ProjectLabels(HandlerOf(st, p), p.svc, spot.uid, spot.project.value);
    a := Action.Get(key, Ok(s[key]));
  }

  lemma WorkspaceReply(st: Setting, s: Store, p: Posted, spot: Spot) returns (a: Action)
    requires Placeable(st, p, spot) && HasRooms(st, s, p, spot)
    ensures Enabled(s, a) && Apply(s, a) == s && Answers(Asks(HandlerOf(st, p), WorkspacePc(st, p, spot)), a)
    ensures Next(HandlerOf(st, p), WorkspacePc(st, p, spot), a) == CreatingPc(st, p, spot)
  {
    hide LabelsOf, WorkspaceAt, GetProvisioningClusterName, Importable, MayLie;
    var key := WorkspaceKey(WorkspaceAt(st, spot));
    a := Action.Get(key, Ok(s[key]));
  }

  /** A worker that finds the service there and no cluster for it comes to its create call. */
  lemma ReachesCreate(st: Setting, w0: World, w: World, x: nat, p: Posted, spot: Spot) returns (to: World)
    requires Leads(st, w0, w) && SlotOf(w, x).Working? && SlotOf(w, x).task.at == p.at
      && SlotOf(w, x).pc == NamespaceGet(p.svc)
    requires Placeable(st, p, spot) && HasRooms(st, w.store, p, spot) && forall k :: !IsClusterFor(w.store, k, p.svc.uid)
    ensures Leads(st, w0, to) && to == w.(slots := to.slots)
    ensures SlotOf(to, x) == SlotOf(w, x).(pc := CreatingPc(st, p, spot))
    ensures forall y | y != x :: SlotOf(to, y) == SlotOf(w, y)
  {
    assert MayLie(st, p.at.host, p.svc.namespace, spot) by { hide MayLie; }
    hide Leads, Asks, Next, Apply, Enabled, Answers, HasRooms, Placeable, NoCluster, IsClusterFor, MayLie, CreatingPc,
      WorkspacePc, NamespaceKey;
    var namespace := Action.Get(NamespaceKey(HandlerOf(st, p), p.svc), Ok(NamespaceOf(spot)));
    NamespaceReply(st, w.store, p, spot, namespace);
    var w1 := MakesCall(st, w0, w, x, namespace);
    NoClusterReply(st, w.store, p, NamespaceOf(spot).labels);
    AfterNoCluster(st, p, spot);
    var w2 := MakesCall(st, w0, w1, x, NoCluster(p));
    var w3 := w2;
    if spot.project.Some? {
      var project := ProjectReply(st, w.store, p, spot);
      w3 := MakesCall(st, w0, w2, x, project);
    }
    var workspace := WorkspaceReply(st, w.store, p, spot);
    to := MakesCall(st, w0, w3, x, workspace);
  }

  /** The service's cluster as its worker creates it. */
  function ClusterOf(st: Setting, p: Posted, spot: Spot): Object {
    Object("", LabelsOf(st, p, spot), [], false, map[])
  }

  lemma ClusterIsFor(st: Setting, s: Store, p: Posted, spot: Spot, key: Key, k: Key, uid: string)
    requires key.cluster == LOCAL && key.kind == ProvisioningCluster && key !in s
    ensures IsClusterFor(s[key := ClusterOf(st, p, spot)], k, uid)
        <==> IsClusterFor(s, k, uid) || (k == key && uid == p.svc.uid)
    ensures HostNameOf(ClusterOf(st, p, spot)) == p.at.host
  {
    LookupsDistinct();
  }

  lemma CreateReply(st: Setting, s: Store, p: Posted, spot: Spot, key: Key, a: Action)
    requires FitsAt(st, p, spot, key) && key !in s
    requires a == Action.Create(key, ClusterOf(st, p, spot), true, Ok(()))
    ensures Enabled(s, a) && Apply(s, a) == s[key := ClusterOf(st, p, spot)]
    ensures Answers(Asks(HandlerOf(st, p), CreatingPc(st, p, spot)), a)
    ensures Next(HandlerOf(st, p), CreatingPc(st, p, spot), a) == MgmtList(p.svc, false)
  {
    hide LabelsOf, WorkspaceAt, GetProvisioningClusterName, Importable, Generated, MayLie;
  }

  /** The create call succeeds under any fitting name that is free. */
  lemma CreatesUnder(st: Setting, w0: World, w: World, x: nat, p: Posted, spot: Spot, key: Key) returns (to: World)
    requires Leads(st, w0, w) && FitsAt(st, p, spot, key) && key !in w.store
    requires SlotOf(w, x).Working? && SlotOf(w, x).task.at == p.at && SlotOf(w, x).pc == CreatingPc(st, p, spot)
    ensures Leads(st, w0, to) && to == w.(slots := to.slots, store := w.store[key := ClusterOf(st, p, spot)])
    ensures SlotOf(to, x) == SlotOf(w, x).(pc := MgmtList(p.svc, false))
    ensures forall y | y != x :: SlotOf(to, y) == SlotOf(w, y)
  {
    FitsPlaceable(st, p, spot, key);
    hide Leads, Asks, Next, Apply, Enabled, Answers, Placeable, CreatingPc, FitsAt, ClusterOf;
    var create := Action.Create(key, ClusterOf(st, p, spot), true, Ok(()));
    CreateReply(st, w.store, p, spot, key, create);
    to := MakesCall(st, w0, w, x, create);
  }

  lemma StartsDeploying(p: Posted, t: Task)
    requires Importable(p.svc)
    ensures Start(Item(t.at.key, t.uid), Found(p.svc)) == NamespaceGet(p.svc)
  {
  }

  lemma GivenFits(st: Setting, p: Posted, key: Key) returns (spot: Spot)
    requires Given(st, p, key)
    ensures FitsAt(st, p, spot, key)
  {
    hide Importable, WorkspaceAt, GetProvisioningClusterName, NameFits, MayLie;
    spot :| MayLie(st, p.at.host, p.svc.namespace, spot) && WorkspaceAt(st, spot) == key.namespace;
  }

  lemma FitsPlaceable(st: Setting, p: Posted, spot: Spot, key: Key)
    requires FitsAt(st, p, spot, key)
    ensures Placeable(st, p, spot) && There(st, p) && key.kind == ProvisioningCluster && key.cluster == LOCAL
    ensures !p.svc.deleting && p.svc.uid != "" && MayLie(st, p.at.host, p.svc.namespace, spot)
  {
    hide GetProvisioningClusterName, NameFits, MayLie, WorkspaceAt;
  }

  lemma SameSlots(w: World, w': World)
    requires w.slots == w'.slots
    ensures forall y :: SlotOf(w', y) == SlotOf(w, y)
  {
  }

  /** A version of a service appears, and an idle worker takes an item of its key and finds it there. */
  lemma StartsServing(st: Setting, w0: World, w: World, x: nat, p: Posted, spot: Spot, t: Task) returns (to: World)
    requires Leads(st, w0, w) && There(st, p) && Placeable(st, p, spot) && MayBecome(w.hist, p.at, Present(p.svc))
    requires t.at == p.at && (t in w.tasks || t.uid == p.svc.uid)
    requires SlotOf(w, x).Idle? && forall y :: SlotOf(w, y).Idle? || SlotOf(w, y).task != t
    ensures Leads(st, w0, to) && to.hist == Grown(w.hist, p.at, Present(p.svc))
    ensures to.tasks == w.tasks + {Task(p.at, p.svc.uid)}
    ensures SlotOf(to, x) == Working(t, Found(p.svc), NamespaceGet(p.svc))
    ensures forall y | y != x :: SlotOf(to, y) == SlotOf(w, y)
    ensures HasRooms(st, to.store, p, spot) && SameClusters(w.store, to.store)
  {
    StartsDeploying(p, t);
    hide Leads, There, MayBecome, HasRooms, SameClusters, Importable, MayLie, Start, CacheOf, Grown,
      GetProvisioningClusterName, SlotOf;
    var w1 := Furnish(st, w0, w, p, spot);
    var w2 := Appear(st, w0, w1, p);
    SameSlots(w, w2);
    to := TakeUp(st, w0, w2, x, t);
  }

  /** A service that may be there appears, and an idle worker gives it the cluster `key`. */
  lemma GetsCluster(st: Setting, w0: World, w: World, x: nat, p: Posted, spot: Spot, key: Key) returns (to: World)
    requires Leads(st, w0, w) && FitsAt(st, p, spot, key) && MayBecome(w.hist, p.at, Present(p.svc))
    requires SlotOf(w, x).Idle? && forall y :: SlotOf(w, y).Idle? || SlotOf(w, y).task != Task(p.at, p.svc.uid)
    requires key !in w.store && forall k :: !IsClusterFor(w.store, k, p.svc.uid)
    ensures Leads(st, w0, to) && to.hist == Grown(w.hist, p.at, Present(p.svc))
    ensures to.tasks == w.tasks + {Task(p.at, p.svc.uid)}
    ensures SlotOf(to, x) == Working(Task(p.at, p.svc.uid), Found(p.svc), MgmtList(p.svc, false))
    ensures forall y | y != x :: SlotOf(to, y) == SlotOf(w, y)
    ensures ClusterAdded(st, w.store, to.store, p, spot, key)
  {
    FitsPlaceable(st, p, spot, key);
    hide Leads, FitsAt, There, MayBecome, Placeable, HasRooms, IsClusterFor, CreatingPc, Grown, ClusterAdded,
      SameClusters, MayLie;
    var w1 := StartsServing(st, w0, w, x, p, spot, Task(p.at, p.svc.uid));
    NoneYetEither(w.store, w1.store, p.svc.uid, key);
    var w2 := ReachesCreate(st, w0, w1, x, p, spot);
    to := CreatesUnder(st, w0, w2, x, p, spot, key);
    AddsCluster(st, w.store, w1.store, p, spot, key);
  }

  /** The service's cluster has come to be under `key`; all other clusters are the same. */
  ghost predicate ClusterAdded(st: Setting, s: Store, s': Store, p: Posted, spot: Spot, key: Key) {
    key in s' && s'[key] == ClusterOf(st, p, spot) && OneMoreCluster(s, s', key, p.svc.uid) && SameButFor(s, s', key)
  }

  ghost predicate OneMoreCluster(s: Store, s': Store, key: Key, uid: string) {
    forall k, u :: IsClusterFor(s', k, u) <==> IsClusterFor(s, k, u) || (k == key && u == uid)
  }

  ghost predicate SameButFor(s: Store, s': Store, key: Key) {
    forall k: Key | (k.kind == ProvisioningCluster || k.kind == ManagementCluster) && k != key ::
      (k in s' <==> k in s) && (k in s ==> s'[k] == s[k])
  }

  lemma NoneYetEither(s: Store, s': Store, uid: string, key: Key)
    requires SameClusters(s, s') && key.kind == ProvisioningCluster && key !in s && forall k :: !IsClusterFor(s, k, uid)
    ensures key !in s' && forall k :: !IsClusterFor(s', k, uid)
  {
    forall k
      ensures !IsClusterFor(s', k, uid)
    {
      SameClustersFor(s, s', k, uid);
    }
  }

  lemma AddsCluster(st: Setting, s: Store, mid: Store, p: Posted, spot: Spot, key: Key)
    requires SameClusters(s, mid) && key.cluster == LOCAL && key.kind == ProvisioningCluster && key !in mid
    ensures ClusterAdded(st, s, mid[key := ClusterOf(st, p, spot)], p, spot, key)
  {
    hide ClusterOf, IsClusterFor, SameButFor, SameClusters, OneMoreCluster;
    AddsOne(st, s, mid, p, spot, key);
    KeepsOthers(s, mid, key, ClusterOf(st, p, spot));
  }

  lemma AddsOne(st: Setting, s: Store, mid: Store, p: Posted, spot: Spot, key: Key)
    requires SameClusters(s, mid) && key.cluster == LOCAL && key.kind == ProvisioningCluster && key !in mid
    ensures OneMoreCluster(s, mid[key := ClusterOf(st, p, spot)], key, p.svc.uid)
  {
    hide ClusterOf, IsClusterFor, SameClusters;
    var s' := mid[key := ClusterOf(st, p, spot)];
    forall k, u
      ensures IsClusterFor(s', k, u) <==> IsClusterFor(s, k, u) || (k == key && u == p.svc.uid)
    {
      ClusterIsFor(st, mid, p, spot, key, k, u);
      SameClustersFor(s, mid, k, u);
    }
  }

  lemma KeepsOthers(s: Store, mid: Store, key: Key, obj: Object)
    requires SameClusters(s, mid)
    ensures SameButFor(s, mid[key := obj], key)
  {
    forall k: Key | (k.kind == ProvisioningCluster || k.kind == ManagementCluster) && k != key
      ensures (k in mid[key := obj] <==> k in s) && (k in s ==> mid[key := obj][k] == s[k])
    {
      assert k in s <==> k in mid;
    }
  }

  // ---- a name passed on between a cleanup's listing and its delete ----

  /** A waiting worker gives its item back. */
  lemma Rests(st: Setting, w0: World, w: World, x: nat, p: Posted) returns (to: World)
    requires Leads(st, w0, w) && SlotOf(w, x).Working? && SlotOf(w, x).task.at == p.at
    requires SlotOf(w, x).pc == MgmtList(p.svc, false)
    requires forall k: Key | k in w.store :: k.kind != ManagementCluster
    ensures Leads(st, w0, to) && to == w.(slots := to.slots) && SlotOf(to, x).Idle?
    ensures forall y | y != x :: SlotOf(to, y) == SlotOf(w, y)
  {
    hide Leads;
    var none := Action.List(ByServiceUid(ManagementCluster, p.svc.uid), Ok([]));
    NoManagementReply(HandlerOf(st, p), w.store, p.svc, none);
    hide Asks, Next, Enabled, Answers;
    var w1 := MakesCall(st, w0, w, x, none);
    to := LeadsOn(st, w0, w1, Release(x));
  }

  lemma NoManagementReply(h: Host, s: Store, svc: Service, a: Action)
    requires (forall k: Key | k in s :: k.kind != ManagementCluster)
    requires a == Action.List(ByServiceUid(ManagementCluster, svc.uid), Ok([]))
    ensures Enabled(s, a) && Answers(Asks(h, MgmtList(svc, false)), a) && Next(h, MgmtList(svc, false), a).Finished?
  {
  }

  lemma OnlyClusterListed(st: Setting, s: Store, p: Posted, spot: Spot, key: Key, a: Action)
    requires key in s && s[key] == ClusterOf(st, p, spot) && forall k :: IsClusterFor(s, k, p.svc.uid) <==> k == key
    requires a == Action.List(ByServiceUid(ProvisioningCluster, p.svc.uid), Ok([Entry(key, s[key])]))
    ensures Enabled(s, a) && Apply(s, a) == s && Answers(Asks(HandlerOf(st, p), CleanupList(p.svc.uid)), a)
    ensures Next(HandlerOf(st, p), CleanupList(p.svc.uid), a) == CleanupDelete(p.svc.uid, key)
  {
    assert IsClusterFor(s, key, p.svc.uid);
    ClusterIsFor(st, map[], p, spot, key, key, p.svc.uid);
    hide ClusterOf;
    forall k | k in s && Matches(ByServiceUid(ProvisioningCluster, p.svc.uid), k, s[k])
      ensures k == key
    {
      assert IsClusterFor(s, k, p.svc.uid);
    }
  }

  /** The service goes, an idle worker takes its item, lists its one cluster and is about to delete it. */
  lemma ComesToDelete(st: Setting, w0: World, w: World, x: nat, p: Posted, spot: Spot, key: Key) returns (to: World)
    requires Leads(st, w0, w) && Task(p.at, p.svc.uid) in w.tasks && p.svc.uid != ""
    requires Hist(w.hist, p.at) != [] && Now(w.hist, p.at).Present?
    requires SlotOf(w, x).Idle? && forall y :: SlotOf(w, y).Idle? || SlotOf(w, y).task != Task(p.at, p.svc.uid)
    requires key in w.store && w.store[key] == ClusterOf(st, p, spot)
    requires forall k :: IsClusterFor(w.store, k, p.svc.uid) <==> k == key
    ensures Leads(st, w0, to) && to.hist == Grown(w.hist, p.at, Absent) && to.store == w.store
    ensures SlotOf(to, x) == Working(Task(p.at, p.svc.uid), Missing, CleanupDelete(p.svc.uid, key))
    ensures forall y | y != x :: SlotOf(to, y) == SlotOf(w, y)
  {
    hide Leads, IsClusterFor, ClusterOf, CacheOf, Grown, Hist, SlotOf, Asks, Next, Enabled, Answers, Apply;
    var w1 := Vanish(st, w0, w, p.at);
    SameSlots(w, w1);
    var w2 := TakeUp(st, w0, w1, x, Task(p.at, p.svc.uid));
    var list := Action.List(ByServiceUid(ProvisioningCluster, p.svc.uid), Ok([Entry(key, w.store[key])]));
    OnlyClusterListed(st, w.store, p, spot, key, list);
    to := MakesCall(st, w0, w2, x, list);
  }

  /** Someone else removes a provisioning cluster, as Rancher does when its management cluster was deleted. */
  lemma Removed(st: Setting, w0: World, w: World, key: Key) returns (to: World)
    requires Leads(st, w0, w) && key.kind == ProvisioningCluster
    ensures Leads(st, w0, to) && to == w.(store := w.store - {key})
  {
    hide DataInv, HistoryIn, ClustersIn, TasksApart, SlotIn, LeadsBy, HomeFits;
    forall uid, host | HasCarrier(w.store - {key}, uid, host)
      ensures HasCarrier(w.store, uid, host)
    {
      var k :| k in w.store - {key} && Carries(k, w.store[k], uid, host);
      assert k in w.store;
    }
    to := LeadsOn(st, w0, w, Outside(w.store - {key}));
  }

  // ---- histories ----

  lemma FirstVersion(p: Posted)
    requires !p.svc.deleting && p.svc.uid != "" && KeyOf(p.svc) == p.at.key
    ensures MayBecome(map[], p.at, Present(p.svc))
    ensures Hist(map[], p.at) == [Absent]
  {
  }

  /** After a service has come and gone, any other service may come. */
  lemma AnotherMayCome(p: Posted, q: Posted)
    requires !q.svc.deleting && q.svc.uid != "" && q.svc.uid != p.svc.uid && KeyOf(q.svc) == q.at.key
    ensures var h := Grown(Grown(map[], p.at, Present(p.svc)), p.at, Absent);
      MayBecome(h, q.at, Present(q.svc)) && LiveAt(Grown(h, q.at, Present(q.svc)), q.at, q.svc.uid)
  {
    var h1 := Grown(map[], p.at, Present(p.svc));
    var h := Grown(h1, p.at, Absent);
    assert Hist(h, q.at)[|Hist(h, q.at)| - 1] == Absent;
    forall k, n, uid | HasUid(h, k, n, uid)
      ensures uid == p.svc.uid
    {
      UidsAfter(h1, p.at, Absent, k, n, uid);
      UidsAfter(map[], p.at, Present(p.svc), k, n, uid);
    }
  }

  /** The store holds no cluster but `key`, which is a provisioning cluster. */
  ghost predicate OnlyCluster(s: Store, key: Key) {
    && key.kind == ProvisioningCluster
    && forall k: Key | k in s && (k.kind == ProvisioningCluster || k.kind == ManagementCluster) :: k == key
  }

  lemma NoManagement(s: Store, key: Key)
    requires OnlyCluster(s, key)
    ensures forall k: Key | k in s :: k.kind != ManagementCluster
  {
  }

  lemma OnlyClusterAdded(st: Setting, s: Store, p: Posted, spot: Spot, key: Key)
    requires ClusterAdded(st, NOTHING.store, s, p, spot, key) && key.kind == ProvisioningCluster
    ensures key in s && s[key] == ClusterOf(st, p, spot)
    ensures forall k, uid :: IsClusterFor(s, k, uid) <==> k == key && uid == p.svc.uid
    ensures OnlyCluster(s, key)
  {
    NothingIdle();
    hide ClusterOf, IsClusterFor;
  }

  lemma NothingIdle()
    ensures forall k, uid :: !IsClusterFor(NOTHING.store, k, uid)
    ensures forall y :: SlotOf(NOTHING, y).Idle?
  {
  }

  /** From nothing: a worker gives the first service its cluster `key`, and waits for its management cluster. */
  lemma FirstGets(st: Setting, p: Posted, spot: Spot, key: Key) returns (w: World)
    requires FitsAt(st, p, spot, key)
    ensures Leads(st, NOTHING, w) && w.hist == Grown(map[], p.at, Present(p.svc))
    ensures SlotOf(w, 0) == Working(Task(p.at, p.svc.uid), Found(p.svc), MgmtList(p.svc, false))
    ensures (forall y | y != 0 :: SlotOf(w, y).Idle?) && Task(p.at, p.svc.uid) in w.tasks
    ensures ClusterAdded(st, NOTHING.store, w.store, p, spot, key)
  {
    NothingStarts(st);
    NothingIdle();
    FitsPlaceable(st, p, spot, key);
    FirstVersion(p);
    hide Leads, FitsAt, Placeable, IsClusterFor, MayBecome, SlotOf, Grown, ClusterAdded, MayLie;
    w := GetsCluster(st, NOTHING, NOTHING, 0, p, spot, key);
  }

  lemma AllIdle(w: World, w': World)
    requires (forall y | y != 0 :: SlotOf(w, y).Idle?) && SlotOf(w', 0).Idle?
    requires forall y | y != 0 :: SlotOf(w', y) == SlotOf(w, y)
    ensures forall y :: SlotOf(w', y).Idle?
  {
  }

  /** From nothing: the first service has its cluster `key`, and no worker has anything in hand. */
  lemma FirstComes(st: Setting, p: Posted, spot: Spot, key: Key) returns (w: World)
    requires FitsAt(st, p, spot, key)
    ensures Leads(st, NOTHING, w) && w.hist == Grown(map[], p.at, Present(p.svc))
    ensures (forall y :: SlotOf(w, y).Idle?) && Task(p.at, p.svc.uid) in w.tasks
    ensures key in w.store && w.store[key] == ClusterOf(st, p, spot)
    ensures forall k, uid :: IsClusterFor(w.store, k, uid) <==> k == key && uid == p.svc.uid
    ensures OnlyCluster(w.store, key)
  {
    FitsPlaceable(st, p, spot, key);
    hide Leads, FitsAt, IsClusterFor, ClusterOf, SlotOf, Grown, ClusterAdded, There, Placeable, MayLie, OnlyCluster;
    var w1 := FirstGets(st, p, spot, key);
    OnlyClusterAdded(st, w1.store, p, spot, key);
    NoManagement(w1.store, key);
    w := Rests(st, NOTHING, w1, 0, p);
    AllIdle(w1, w);
  }

  /** From nothing: the first service has had its cluster `key`, is gone again, and a worker is about to delete it. */
  lemma FirstComesAndGoes(st: Setting, p: Posted, spot: Spot, key: Key) returns (w: World)
    requires FitsAt(st, p, spot, key)
    ensures Leads(st, NOTHING, w) && w.hist == Grown(Grown(map[], p.at, Present(p.svc)), p.at, Absent)
    ensures SlotOf(w, 0) == Working(Task(p.at, p.svc.uid), Missing, CleanupDelete(p.svc.uid, key))
    ensures forall y | y != 0 :: SlotOf(w, y).Idle?
    ensures key in w.store && forall k, uid :: IsClusterFor(w.store, k, uid) <==> k == key && uid == p.svc.uid
    ensures OnlyCluster(w.store, key)
  {
    FitsPlaceable(st, p, spot, key);
    hide Leads, FitsAt, There, Placeable, IsClusterFor, ClusterOf, SlotOf, MayLie;
    var w1 := FirstComes(st, p, spot, key);
    w := ComesToDelete(st, NOTHING, w1, 0, p, spot, key);
  }

  /** For all settings and all pairs of services that can be given one name: a run from nothing leads to a step in
      which the cleanup for one deletes the cluster of the other, which exists and is not being deleted. */
  lemma SharedNameHits(st: Setting, p: Posted, q: Posted, key: Key) returns (w: World, e: Event)
    requires Given(st, p, key) && Given(st, q, key) && p.svc.uid != q.svc.uid
    ensures Leads(st, NOTHING, w) && Can(st.config, w, e) && Copying(st, w, e) && HitsLive(w, e)
  {
    var spot := GivenFits(st, p, key);
    var spot' := GivenFits(st, q, key);
    FitsPlaceable(st, p, spot, key);
    FitsPlaceable(st, q, spot', key);
    AnotherMayCome(p, q);
    hide Leads, Given, FitsAt, There, IsClusterFor, ClusterOf, Placeable, MayLie, MayBecome, Grown, LiveAt;
    var w1 := FirstComesAndGoes(st, p, spot, key);
    var w2 := Removed(st, NOTHING, w1, key);
    SameSlots(w1, w2);
    NoneAfterRemoval(w1.store, key, p.svc.uid);
    w := GetsCluster(st, NOTHING, w2, 1, q, spot', key);
    e := Call(0, Action.Delete(key, true, Ok(())));
    HitsNow(st, w, p, q, key, e);
  }

  lemma NoneAfterRemoval(s: Store, key: Key, uid: string)
    requires forall k, u :: IsClusterFor(s, k, u) <==> k == key && u == uid
    ensures forall k, u :: !IsClusterFor(s - {key}, k, u)
  {
    forall k, u
      ensures !IsClusterFor(s - {key}, k, u)
    {
      assert IsClusterFor(s, k, u) <==> k == key && u == uid;
    }
  }

  lemma HitsNow(st: Setting, w: World, p: Posted, q: Posted, key: Key, e: Event)
    requires SlotOf(w, 0) == Working(Task(p.at, p.svc.uid), Missing, CleanupDelete(p.svc.uid, key))
    requires IsClusterFor(w.store, key, q.svc.uid) && LiveAt(w.hist, q.at, q.svc.uid)
    requires e == Call(0, Action.Delete(key, true, Ok(())))
    ensures Can(st.config, w, e) && Copying(st, w, e) && HitsLive(w, e)
  {
    hide LiveAt;
  }

  // ---- the exact condition ----

  /** Some run of the deployment, from nothing, comes to a step that deletes a live service's cluster. */
  ghost predicate CanHitLive(st: Setting) {
    exists run, e :: HitsAfter(st, run, e)
  }

  ghost predicate HitsAfter(st: Setting, run: seq<Event>, e: Event) {
    && Ran(st.config, NOTHING, run, Guard(st))
    && Can(st.config, End(st.config, NOTHING, run, Guard(st)), e)
    && HitsLive(End(st.config, NOTHING, run, Guard(st)), e)
  }

  /** A cleanup can come to delete the provisioning cluster of a live service if and only if two service UIDs of the
      deployment can be given one name in one workspace, where namespaces may be moved between projects. */
  lemma HitsLiveExactly(st: Setting)
    ensures CanHitLive(st) <==> !NamesApart(st)
  {
    hide Leads, Given, HitsLive, Can, KeepsTo, Ran, End, InSetting, StartsIn;
    NothingStarts(st);
    StartsInSetting(st, NOTHING);
    if run, e :| HitsAfter(st, run, e) {
      AlwaysInSetting(st, NOTHING, run);
      HitSharesName(st, End(st.config, NOTHING, run, Guard(st)), e);
    }
    if !NamesApart(st) {
      var key, uid, uid' :| MayGet(st, uid, key) && MayGet(st, uid', key) && uid != uid';
      var p :| Given(st, p, key) && p.svc.uid == uid;
      var q :| Given(st, q, key) && q.svc.uid == uid';
      var w, e := SharedNameHits(st, p, q, key);
      var run := LeadsMeansRun(st, NOTHING, w);
      assert HitsAfter(st, run, e);
    }
  }
}
