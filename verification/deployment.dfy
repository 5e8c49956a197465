/** What a deployment can hold, fixed before any run: the configuration, the versions of services that may ever be
    there, the projects the hosts' namespaces may be in, and the names Rancher may give management clusters. From it alone
    follows which provisioning clusters each service can be given, in every run and under any interleaving. */
module Deployment {
  import opened Text
  import opened Api
  import opened Calls
  import opened Constants
  import opened Config
  import opened Naming
  import opened HandlerProgram
  import opened HandlerFacts
  import opened Lifecycle
  import opened Safety
  import opened Uniqueness

  /** A version of a service that may be there under a key. */
  datatype Posted = Posted(at: SvcKey, svc: Service)

  /** A namespace of a host may be in this project, or in none. */
  datatype Home = Home(host: string, namespace: string, project: Option<string>)

  /** A project of a host may have this UID. */
  datatype Titled = Titled(host: string, project: string, uid: string)

  /** A service UID that a management cluster's name may come to carry. */
  datatype Tenant = Tenant(key: Key, uid: string)

  /** What may be in the course of time: namespaces may move between projects, and projects may be made anew. */
  datatype Setting = Setting(config: Config, services: iset<Posted>, homes: iset<Home>, projects: iset<Titled>,
                             management: iset<Tenant>)

  // ---- what a service can be given ----

  /** The handler imports this version of a service. */
  predicate Importable(svc: Service) {
    !svc.deleting && svc.uid != "" && svc.clusterIP != "None"
      && Lookup(svc.annotations, ANNOTATION_SKIP_IMPORT) != "true"
  }

  /** The version may be there: under the key of its own namespace and name. */
  ghost predicate There(st: Setting, p: Posted) {
    p in st.services && KeyOf(p.svc) == p.at.key
  }

  /** Where a namespace lies when it is looked up: its project and that project's UID. */
  datatype Spot = Spot(project: Option<string>, uid: string)

  ghost predicate MayLie(st: Setting, host: string, namespace: string, spot: Spot) {
    && Home(host, namespace, spot.project) in st.homes
    && match spot.project
       case None => spot.uid == NO_RANCHER_PROJECT
       case Some(project) => Titled(host, project, spot.uid) in st.projects
  }

  function WorkspaceAt(st: Setting, spot: Spot): string {
    GetTargetClusterNamespace(st.config, spot.uid)
  }

  /** The services of a namespace may be sent to this workspace. */
  ghost predicate MayWork(st: Setting, host: string, namespace: string, target: string) {
    exists spot :: MayLie(st, host, namespace, spot) && WorkspaceAt(st, spot) == target
  }

  /** This version of a service may be given the provisioning cluster `key`: a workspace its namespace may be sent to,
      and a name that fits the choice its annotations and its own name make. */
  ghost predicate Fits(st: Setting, host: string, svc: Service, key: Key) {
    && key.cluster == LOCAL && key.kind == ProvisioningCluster
    && MayWork(st, host, svc.namespace, key.namespace)
    && GetProvisioningClusterName(host, svc).Some?
    && NameFits(GetProvisioningClusterName(host, svc).value, key.name)
  }

  ghost predicate Given(st: Setting, p: Posted, key: Key) {
    There(st, p) && Importable(p.svc) && Fits(st, p.at.host, p.svc, key)
  }

  ghost predicate MayGet(st: Setting, uid: string, key: Key) {
    exists p :: Given(st, p, key) && p.svc.uid == uid
  }

  /** No two service UIDs can be given one name in one workspace. */
  ghost predicate NamesApart(st: Setting) {
    forall key, uid, uid' :: MayGet(st, uid, key) && MayGet(st, uid', key) ==> uid == uid'
  }

  /** A service with this UID can come to be under the key. */
  ghost predicate Creatable(st: Setting, at: SvcKey, uid: string) {
    uid != "" && exists p: Posted :: There(st, p) && p.at == at && p.svc.uid == uid && !p.svc.deleting
  }

  // ---- what the surroundings keep to ----

  function ProjectIn(nsLabels: Labels): Option<string> {
    if LABEL_RANCHER_PROJECT in nsLabels then Some(nsLabels[LABEL_RANCHER_PROJECT]) else None
  }

  /** The labels of a namespace object name a project the namespace may be in, or none. */
  ghost predicate NamespaceFits(st: Setting, host: string, namespace: string, labels: Labels) {
    Home(host, namespace, ProjectIn(labels)) in st.homes
  }

  ghost predicate HomeFits(st: Setting, k: Key, obj: Object) {
    && (k.kind == NamespaceKind ==> NamespaceFits(st, k.cluster, k.name, obj.labels))
    && (k.kind == Project && k.cluster == LOCAL ==> Titled(k.namespace, k.name, obj.uid) in st.projects)
  }

  ghost predicate HomesOk(st: Setting, s: Store) {
    forall k | k in s :: HomeFits(st, k, s[k])
  }

  ghost predicate ManagementOk(st: Setting, s: Store) {
    forall k | k in s && k.kind == ManagementCluster :: Tenant(k, ServiceUidOf(s[k])) in st.management
  }

  /** Hosts post only the setting's services, other parties keep to what it says of projects and of management
      clusters' names, and only the operator gives provisioning clusters service UIDs. */
  ghost predicate KeepsTo(st: Setting, w: World, e: Event) {
    && (e.HostChange? && e.version.Present? ==> There(st, Posted(e.at, e.version.svc)))
    && (e.Outside? ==> HomesOk(st, e.after) && ManagementOk(st, e.after))
    && Calm(w, e)
  }

  ghost function Guard(st: Setting): (World, Event) -> bool {
    (w, e) => KeepsTo(st, w, e)
  }

  // ---- the invariant ----

  ghost predicate HistoryIn(st: Setting, h: History) {
    forall k, n, uid :: HasUid(h, k, n, uid) ==> There(st, Posted(k, Hist(h, k)[n].svc)) && Creatable(st, k, uid)
  }

  /** The UID was there under a key, as a service that may be given `key`. */
  ghost predicate GivenIn(st: Setting, h: History, uid: string, key: Key) {
    exists p :: Given(st, p, key) && p.svc.uid == uid && CameFrom(h, p.at, uid)
  }

  /** Every provisioning cluster with a service UID is one that service may be given. */
  ghost predicate ClustersIn(st: Setting, h: History, s: Store) {
    forall k, uid :: IsClusterFor(s, k, uid) ==> GivenIn(st, h, uid, k)
  }

  ghost predicate HasPlace(st: Setting, h: History, uid: string) {
    exists key :: GivenIn(st, h, uid, key)
  }

  /** What a worker that stands at `pc` is working towards keeps to the setting. */
  ghost predicate PcIn(st: Setting, h: History, host: string, pc: Pc) {
    match pc
    case CleanupDelete(uid, key) => GivenIn(st, h, uid, key)
    case NamespaceGet(svc) => Importable(svc)
    case ClusterList(svc, nsLabels) => Importable(svc) && NamespaceFits(st, host, svc.namespace, nsLabels)
    case ProjectGet(svc, project) => Importable(svc) && Home(host, svc.namespace, Some(project)) in st.homes
    case WorkspaceGet(svc, _, target) => Importable(svc) && MayWork(st, host, svc.namespace, target)
    case WorkspaceCreate(svc, _, target) => Importable(svc) && MayWork(st, host, svc.namespace, target)
    case ClusterCreate(svc, _, target, _) => Importable(svc) && MayWork(st, host, svc.namespace, target)
    case MgmtList(svc, _) => HasPlace(st, h, svc.uid)
    case MgmtPatch(svc, _, key, _) => HasPlace(st, h, svc.uid) && Tenant(key, svc.uid) in st.management
    case _ => true
  }

  ghost predicate SlotIn(st: Setting, h: History, slot: Slot) {
    slot.Working? ==>
      && (slot.cached.Found? ==> There(st, Posted(slot.task.at, slot.cached.svc)))
      && PcIn(st, h, slot.task.at.host, slot.pc)
  }

  /** No two workers have the same item. */
  ghost predicate TasksApart(w: World) {
    forall x, y :: SlotOf(w, x).Idle? || SlotOf(w, y).Idle? || x == y || SlotOf(w, x).task != SlotOf(w, y).task
  }

  ghost predicate StoreIn(st: Setting, h: History, s: Store) {
    HomesOk(st, s) && ManagementOk(st, s) && ClustersIn(st, h, s)
  }

  ghost predicate InSetting(st: Setting, w: World) {
    && DataInv(st.config, w) && TasksApart(w)
    && HistoryIn(st, w.hist) && StoreIn(st, w.hist, w.store)
    && forall x :: SlotIn(st, w.hist, SlotOf(w, x))
  }

  /** Runs start with nothing in hand, from a history and a store that keep to the setting. */
  ghost predicate StartsIn(st: Setting, w: World) {
    Init(w) && HistoryIn(st, w.hist) && StoreIn(st, w.hist, w.store)
  }

  // ---- one call of a worker ----

  lemma StaysGiven(st: Setting, h: History, k: SvcKey, v: Version, uid: string, key: Key)
    requires GivenIn(st, h, uid, key)
    ensures GivenIn(st, Grown(h, k, v), uid, key)
  {
    hide Given;
    var p :| Given(st, p, key) && p.svc.uid == uid && CameFrom(h, p.at, uid);
    var n :| HasUid(h, p.at, n, uid);
    UidsAfter(h, k, v, p.at, n, uid);
  }

  lemma StaysPlaced(st: Setting, h: History, k: SvcKey, v: Version, uid: string)
    requires HasPlace(st, h, uid)
    ensures HasPlace(st, Grown(h, k, v), uid)
  {
    hide GivenIn;
    var key :| GivenIn(st, h, uid, key);
    StaysGiven(st, h, k, v, uid, key);
  }

  lemma PcStaysIn(st: Setting, h: History, k: SvcKey, v: Version, host: string, pc: Pc)
    requires PcIn(st, h, host, pc)
    ensures PcIn(st, Grown(h, k, v), host, pc)
  {
    hide GivenIn, HasPlace, Grown, MayWork;
    match pc
    case CleanupDelete(uid, key) => StaysGiven(st, h, k, v, uid, key);
    case MgmtList(svc, _) => StaysPlaced(st, h, k, v, svc.uid);
    case MgmtPatch(svc, _, _, _) => StaysPlaced(st, h, k, v, svc.uid);
    case _ =>
  }

  /** A choice leaves room for some name. */
  lemma SomeNameFits(choice: NameChoice) returns (name: string)
    ensures NameFits(choice, name)
  {
    name := if choice.generate then Truncated(choice.base) + "aaaaa" else choice.base;
  }

  lemma NamespaceStep(st: Setting, h: History, host: Host, svc: Service, s: Store, a: Action)
    requires HomesOk(st, s) && Importable(svc) && Answers(Asks(host, NamespaceGet(svc)), a) && Enabled(s, a)
    ensures PcIn(st, h, host.name, Next(host, NamespaceGet(svc), a))
  {
    hide Importable;
  }

  lemma ProjectLabels(h: Host, svc: Service, uid: string, project: string)
    ensures Lookup(BaseLabels(h, svc)[LABEL_PROJECT_UID := uid][LABEL_PROJECT_NAME := project], LABEL_PROJECT_UID) == uid
    ensures Lookup(BaseLabels(h, svc)[LABEL_PROJECT_UID := uid], LABEL_PROJECT_UID) == uid
  {
    LookupsDistinct();
  }

  lemma ListStep(st: Setting, h: History, host: Host, svc: Service, nsLabels: Labels, s: Store, a: Action)
    requires host.config == st.config && ClustersIn(st, h, s) && PcIn(st, h, host.name, ClusterList(svc, nsLabels))
    requires Answers(Asks(host, ClusterList(svc, nsLabels)), a) && Enabled(s, a)
    ensures PcIn(st, h, host.name, Next(host, ClusterList(svc, nsLabels), a))
  {
    ProjectLabels(host, svc, NO_RANCHER_PROJECT, "");
    hide Importable, BaseLabels, GivenIn, GetTargetClusterNamespace;
    if a.items.Ok? && a.items.value != [] {
      var first := a.items.value[0];
      assert first.key in s && Matches(a.query, first.key, first.obj);
      assert IsClusterFor(s, first.key, svc.uid);
    } else {
      assert LABEL_RANCHER_PROJECT !in nsLabels ==> MayLie(st, host.name, svc.namespace, Spot(None, NO_RANCHER_PROJECT));
    }
  }

  lemma ProjectStep(st: Setting, h: History, host: Host, svc: Service, project: string, s: Store, a: Action)
    requires host.config == st.config && HomesOk(st, s) && PcIn(st, h, host.name, ProjectGet(svc, project))
    requires Answers(Asks(host, ProjectGet(svc, project)), a) && Enabled(s, a)
    ensures PcIn(st, h, host.name, Next(host, ProjectGet(svc, project), a))
  {
    hide Importable, BaseLabels, GetTargetClusterNamespace;
    if a.got.Ok? {
      ProjectLabels(host, svc, a.got.value.uid, project);
      assert HomeFits(st, a.key, s[a.key]);
      assert MayLie(st, host.name, svc.namespace, Spot(Some(project), a.got.value.uid));
    }
  }

  lemma CreateStep(st: Setting, h: History, host: Host, cached: Cached, at: SvcKey, pc: Pc, a: Action)
    requires pc.ClusterCreate? && host.name == at.host && PcIn(st, h, host.name, pc) && Sound(host, cached, pc)
    requires There(st, Posted(at, pc.svc)) && CameFrom(h, at, pc.svc.uid) && Answers(Asks(host, pc), a)
    ensures a.took ==> GivenIn(st, h, pc.svc.uid, a.key)
    ensures PcIn(st, h, host.name, Next(host, pc, a))
  {
    hide Importable, CameFrom, Marked, MayWork, GetProvisioningClusterName, Generated;
    var p := Posted(at, pc.svc);
    var name := SomeNameFits(pc.choice);
    var key := Key(LOCAL, ProvisioningCluster, pc.target, name);
    assert Given(st, p, key);
    assert GivenIn(st, h, pc.svc.uid, key);
    assert a.took ==> Given(st, p, a.key);
  }

  lemma ManagementStep(st: Setting, h: History, host: Host, pc: Pc, s: Store, a: Action)
    requires pc.MgmtList? && ManagementOk(st, s) && PcIn(st, h, host.name, pc)
    requires Answers(Asks(host, pc), a) && Enabled(s, a)
    ensures PcIn(st, h, host.name, Next(host, pc, a))
  {
    hide HasPlace, MgmtChange;
    if Next(host, pc, a).MgmtPatch? {
      ListedForPatch(host, pc, s, a);
    }
  }

  lemma CleanupStep(st: Setting, h: History, host: Host, pc: Pc, s: Store, a: Action)
    requires (pc.CleanupList? || pc.CleanupDelete?) && ClustersIn(st, h, s)
    requires Answers(Asks(host, pc), a) && Enabled(s, a)
    ensures PcIn(st, h, host.name, Next(host, pc, a))
  {
    hide GivenIn, Next, Asks;
    if pc.CleanupList? {
      CleanupListReply(host, pc.uid, s, a);
      var to := Next(host, pc, a);
      assert to.CleanupDelete? ==> IsClusterFor(s, to.key, pc.uid);
    } else {
      CleanupDeleteReply(host, pc.uid, pc.key, a);
    }
  }

  predicate InTheMiddle(pc: Pc) {
    pc.NamespaceGet? || pc.ClusterList? || pc.ProjectGet? || pc.WorkspaceGet? || pc.WorkspaceCreate? || pc.ClusterCreate?
    || pc.MgmtList? || pc.CleanupList? || pc.CleanupDelete?
  }

  lemma LateStep(st: Setting, h: History, host: Host, pc: Pc, a: Action)
    requires !InTheMiddle(pc) && Answers(Asks(host, pc), a)
    ensures PcIn(st, h, host.name, Next(host, pc, a))
  {
    hide JobScan;
    if pc.JobList? && a.items.Ok? {
      ScanTargets(pc.svc, a.items.value);
    } else if pc.JobDelete? {
      ScanTargets(pc.svc, pc.jobs[1..]);
    }
  }

  lemma WorkspaceStep(st: Setting, h: History, host: Host, pc: Pc, a: Action)
    requires (pc.WorkspaceGet? || pc.WorkspaceCreate?) && PcIn(st, h, host.name, pc) && Answers(Asks(host, pc), a)
    ensures PcIn(st, h, host.name, Next(host, pc, a))
  {
    hide Importable, MayWork, GetProvisioningClusterName;
  }

  lemma PcStep(st: Setting, h: History, host: Host, cached: Cached, at: SvcKey, pc: Pc, s: Store, a: Action)
    requires host.config == st.config && host.name == at.host && StoreIn(st, h, s)
    requires PcIn(st, h, host.name, pc) && Sound(host, cached, pc) && Answers(Asks(host, pc), a) && Enabled(s, a)
    requires cached.Found? ==> There(st, Posted(at, cached.svc)) && CameFrom(h, at, cached.svc.uid)
    ensures PcIn(st, h, host.name, Next(host, pc, a))
  {
    hide PcIn, Next, Asks, Enabled, Answers, HomesOk, ManagementOk, ClustersIn, CameFrom;
    match pc
    case NamespaceGet(svc) => NamespaceStep(st, h, host, svc, s, a) by { ImportableThere(st, h, host, svc); }
    case ClusterList(svc, nsLabels) => ListStep(st, h, host, svc, nsLabels, s, a);
    case ProjectGet(svc, project) => ProjectStep(st, h, host, svc, project, s, a);
    case WorkspaceGet(_, _, _) => WorkspaceStep(st, h, host, pc, a);
    case WorkspaceCreate(_, _, _) => WorkspaceStep(st, h, host, pc, a);
    case ClusterCreate(_, _, _, _) => CreateStep(st, h, host, cached, at, pc, a);
    case MgmtList(_, _) => ManagementStep(st, h, host, pc, s, a);
    case CleanupList(_) => CleanupStep(st, h, host, pc, s, a);
    case CleanupDelete(_, _) => CleanupStep(st, h, host, pc, s, a);
    case _ => LateStep(st, h, host, pc, a);
  }

  lemma ImportableThere(st: Setting, h: History, host: Host, svc: Service)
    requires PcIn(st, h, host.name, NamespaceGet(svc))
    ensures Importable(svc)
  {
  }

  lemma StartsInPlace(st: Setting, h: History, host: string, t: Task, cached: Cached)
    requires ProperVersions(h) && (cached.Found? ==> CameFrom(h, t.at, cached.svc.uid))
    ensures PcIn(st, h, host, Start(Item(t.at.key, t.uid), cached))
  {
  }

  // ---- what a call leaves behind ----

  /** No worker touches namespaces or projects. */
  lemma HomesKept(st: Setting, host: Host, cached: Cached, pc: Pc, s: Store, a: Action)
    requires HomesOk(st, s) && Sound(host, cached, pc) && Answers(Asks(host, pc), a) && Enabled(s, a)
    ensures HomesOk(st, Apply(s, a))
  {
    WritesElsewhere(host, cached, pc, a);
    hide Sound, Asks, Answers, NamespaceFits, Patched;
    forall k | k in Apply(s, a)
      ensures HomeFits(st, k, Apply(s, a)[k])
    {
      assert k in s ==> HomeFits(st, k, s[k]);
    }
  }

  lemma WritesElsewhere(host: Host, cached: Cached, pc: Pc, a: Action)
    requires Sound(host, cached, pc) && Answers(Asks(host, pc), a)
    ensures a.Create? || a.Delete? || a.Patch? ==> a.key.kind != NamespaceKind && a.key.kind != Project
  {
    hide Marked, KeepsLookups;
  }

  lemma ManagementKept(st: Setting, w: World, e: Event)
    requires DataInv(st.config, w) && ManagementOk(st, w.store) && e.Call? && Can(st.config, w, e)
    ensures ManagementOk(st, Do(st.config, w, e).store)
  {
    var slot := SlotOf(w, e.worker);
    assert SlotOk(st.config, w.hist, slot);
    hide Inv, SameLookups, Sound, Next, Asks, Enabled;
    var s' := Do(st.config, w, e).store;
    forall k | k in s' && k.kind == ManagementCluster
      ensures Tenant(k, ServiceUidOf(s'[k])) in st.management
    {
      NoNewManagement(HostOf(st.config, slot), slot.cached, slot.pc, w.store, e.a, k);
      CallKeepsLookups(st.config, w, e, k);
      SameUid(w.store[k], s'[k]);
    }
  }

  lemma SameUid(a: Object, b: Object)
    requires SameLookups(a, b)
    ensures ServiceUidOf(a) == ServiceUidOf(b)
  {
    assert IsLookup(LABEL_SERVICE_UID);
  }

  lemma ClustersKept(st: Setting, w: World, e: Event)
    requires InSetting(st, w) && e.Call? && Can(st.config, w, e)
    ensures ClustersIn(st, w.hist, Do(st.config, w, e).store)
  {
    var slot := SlotOf(w, e.worker);
    var host := HostOf(st.config, slot);
    assert SlotOk(st.config, w.hist, slot) && SlotIn(st, w.hist, slot);
    hide Inv, Sound, Next, Asks, Enabled, GivenIn, IsClusterFor, HomesOk, ManagementOk, HistoryIn, TasksApart;
    forall k, uid | IsClusterFor(Apply(w.store, e.a), k, uid)
      ensures GivenIn(st, w.hist, uid, k)
    {
      NewClusterFrom(host, slot.cached, slot.pc, w.store, e.a, k, uid);
      if !IsClusterFor(w.store, k, uid) {
        assert Serves(slot.cached, slot.pc.svc) by { CreatorServes(host, slot.cached, slot.pc); }
        CreateStep(st, w.hist, host, slot.cached, slot.task.at, slot.pc, e.a);
      }
    }
  }

  lemma CreatorServes(host: Host, cached: Cached, pc: Pc)
    requires pc.ClusterCreate? && Sound(host, cached, pc)
    ensures Serves(cached, pc.svc)
  {
  }

  // ---- the invariant is kept ----

  lemma HistoryInKept(st: Setting, w: World, e: Event)
    requires InSetting(st, w) && e.HostChange? && Can(st.config, w, e) && KeepsTo(st, w, e)
    ensures HistoryIn(st, Grown(w.hist, e.at, e.version))
  {
    var h, h' := w.hist, Grown(w.hist, e.at, e.version);
    hide StoreIn, SlotIn, DataInv, TasksApart;
    forall k, n, uid | HasUid(h', k, n, uid)
      ensures There(st, Posted(k, Hist(h', k)[n].svc)) && Creatable(st, k, uid)
    {
      UidsAfter(h, e.at, e.version, k, n, uid);
      if !HasUid(h, k, n, uid) {
        NewVersionCreatable(st, w, e);
      }
    }
  }

  lemma NewVersionCreatable(st: Setting, w: World, e: Event)
    requires HistoryIn(st, w.hist) && e.HostChange? && Can(st.config, w, e) && KeepsTo(st, w, e) && e.version.Present?
    ensures Creatable(st, e.at, e.version.svc.uid)
  {
    match Now(w.hist, e.at)
    case Absent => assert There(st, Posted(e.at, e.version.svc));
    case Present(svc) => assert HasUid(w.hist, e.at, |Hist(w.hist, e.at)| - 1, svc.uid);
  }

  lemma StoreInKept(st: Setting, w: World, e: Event)
    requires InSetting(st, w) && Can(st.config, w, e) && KeepsTo(st, w, e)
    ensures StoreIn(st, Do(st.config, w, e).hist, Do(st.config, w, e).store)
  {
    hide HomesOk, ManagementOk, IsClusterFor, HistoryIn, TasksApart, Inv, Sound, Next, Asks, GivenIn, Enabled;
    match e
    case Call(x, a) =>
      var slot := SlotOf(w, x);
      assert SlotOk(st.config, w.hist, slot);
      HomesKept(st, HostOf(st.config, slot), slot.cached, slot.pc, w.store, a);
      ManagementKept(st, w, e);
      ClustersKept(st, w, e);
    case HostChange(k, v) =>
      forall key, uid | IsClusterFor(w.store, key, uid)
        ensures GivenIn(st, Grown(w.hist, k, v), uid, key)
      {
        StaysGiven(st, w.hist, k, v, uid, key);
      }
    case Outside(after) =>
      assert forall k, uid | IsClusterFor(after, k, uid) :: OutsideMakesNoClusters(w.store, after, k, uid);
    case _ =>
  }

  lemma SlotInKept(st: Setting, w: World, e: Event, x: nat)
    requires InSetting(st, w) && Can(st.config, w, e) && KeepsTo(st, w, e)
    ensures SlotIn(st, Do(st.config, w, e).hist, SlotOf(Do(st.config, w, e), x))
  {
    hide HomesOk, ManagementOk, ClustersIn, HistoryIn, TasksApart, Sound, Next, Asks, PcIn, Enabled, Start, HistoryOk;
    var slot := SlotOf(w, x);
    assert SlotOk(st.config, w.hist, slot) && SlotIn(st, w.hist, slot);
    match e
    case Call(y, a) =>
      if y == x {
        PcStep(st, w.hist, HostOf(st.config, slot), slot.cached, slot.task.at, slot.pc, w.store, a);
      }
    case HostChange(k, v) =>
      if slot.Working? {
        PcStaysIn(st, w.hist, k, v, slot.task.at.host, slot.pc);
      }
    case Look(y, broken) =>
      if y == x {
        LookedUpIn(st, w, slot.task, broken);
      }
    case _ =>
  }

  lemma LookedUpIn(st: Setting, w: World, t: Task, broken: bool)
    requires InSetting(st, w)
    ensures var cached := if broken then CacheError else CacheOf(w, t.at);
      SlotIn(st, w.hist, Working(t, cached, Start(Item(t.at.key, t.uid), cached)))
  {
    hide StoreIn, SlotIn, TasksApart, PcIn, Start;
    var cached := if broken then CacheError else CacheOf(w, t.at);
    if cached.Found? {
      assert HasUid(w.hist, t.at, Seen(w, t.at), cached.svc.uid);
    }
    StartsInPlace(st, w.hist, t.at.host, t, cached);
    assert SlotIn(st, w.hist, Working(t, cached, Start(Item(t.at.key, t.uid), cached))) by {
      FoundIsPosted(st, w, t.at, cached);
      SlotFrom(st, w.hist, t, cached);
    }
  }

  lemma FoundIsPosted(st: Setting, w: World, k: SvcKey, cached: Cached)
    requires HistoryIn(st, w.hist) && (cached.Found? ==> CacheOf(w, k) == cached)
    ensures cached.Found? ==> There(st, Posted(k, cached.svc))
  {
    assert cached.Found? ==> HasUid(w.hist, k, Seen(w, k), cached.svc.uid);
  }

  lemma SlotFrom(st: Setting, h: History, t: Task, cached: Cached)
    requires cached.Found? ==> There(st, Posted(t.at, cached.svc))
    requires PcIn(st, h, t.at.host, Start(Item(t.at.key, t.uid), cached))
    ensures SlotIn(st, h, Working(t, cached, Start(Item(t.at.key, t.uid), cached)))
  {
  }

  lemma TasksApartKept(st: Setting, w: World, e: Event)
    requires TasksApart(w) && Can(st.config, w, e)
    ensures TasksApart(Do(st.config, w, e))
  {
    hide Next, Asks, Start;
    var w' := Do(st.config, w, e);
    forall x, y
      ensures SlotOf(w', x).Idle? || SlotOf(w', y).Idle? || x == y || SlotOf(w', x).task != SlotOf(w', y).task
    {
      var a, b := SlotOf(w, x), SlotOf(w, y);
      if e.Take? {
        assert a.Idle? || a.task != e.task;
        assert b.Idle? || b.task != e.task;
      }
    }
  }

  lemma InSettingKept(st: Setting, w: World, e: Event)
    requires InSetting(st, w) && Can(st.config, w, e) && KeepsTo(st, w, e)
    ensures InSetting(st, Do(st.config, w, e))
  {
    hide DataInv, HistoryIn, StoreIn, SlotIn, TasksApart;
    DataInvKept(st.config, w, e);
    TasksApartKept(st, w, e);
    StoreInKept(st, w, e);
    forall x
      ensures SlotIn(st, Do(st.config, w, e).hist, SlotOf(Do(st.config, w, e), x))
    {
      SlotInKept(st, w, e, x);
    }
    if e.HostChange? {
      HistoryInKept(st, w, e);
    }
  }

  lemma StartsInSetting(st: Setting, w: World)
    requires StartsIn(st, w)
    ensures InSetting(st, w)
  {
    hide HistoryIn, StoreIn;
    InitInv(w);
  }

  /** In every run that keeps to the setting, with any cache lag and interleaving: every provisioning cluster with a
      service UID is one that the setting lets that service have, and so is every one a worker is about to delete. */
  lemma {:induction false} AlwaysInSetting(st: Setting, w: World, run: seq<Event>)
    requires InSetting(st, w) && Ran(st.config, w, run, Guard(st))
    ensures InSetting(st, End(st.config, w, run, Guard(st)))
    decreases |run|
  {
    hide InSetting, Can, Do, KeepsTo;
    if run != [] {
      AlwaysInSetting(st, w, run[..|run| - 1]);
      InSettingKept(st, End(st.config, w, run[..|run| - 1], Guard(st)), run[|run| - 1]);
    }
  }

  // ---- deleting by name ----

  /** A deletion that hits a live service's cluster shows a name that two services can be given. */
  lemma HitSharesName(st: Setting, w: World, e: Event)
    requires InSetting(st, w) && HitsLive(w, e)
    ensures exists key, uid, uid' :: MayGet(st, uid, key) && MayGet(st, uid', key) && uid != uid'
  {
    hide Given, HistoryIn, TasksApart, HomesOk, ManagementOk, HistoryOk;
    var slot := SlotOf(w, e.worker);
    assert SlotOk(st.config, w.hist, slot) && SlotIn(st, w.hist, slot) && CleansUp(slot);
    var uid := ServiceUidOf(w.store[e.a.key]);
    LiveHasUid(w.hist, uid);
    assert IsClusterFor(w.store, e.a.key, uid);
    assert GivenIn(st, w.hist, uid, e.a.key) && GivenIn(st, w.hist, slot.pc.uid, e.a.key);
    assert MayGet(st, uid, e.a.key) && MayGet(st, slot.pc.uid, e.a.key);
  }

  lemma LiveHasUid(h: History, uid: string)
    requires HistoryOk(h) && Live(h, uid)
    ensures uid != ""
  {
    var k :| LiveAt(h, k, uid);
    assert HasUid(h, k, |Hist(h, k)| - 1, uid);
  }

  /** In every run of a deployment in which no two services can be given one name, with any cache lag, any
      recreation of services and any interleaving of any number of workers, no cleanup ever deletes the
      provisioning cluster of a service that exists without a deletion timestamp. */
  lemma NeverDeletesLiveCluster(st: Setting, w: World, run: seq<Event>, e: Event)
    requires StartsIn(st, w) && Ran(st.config, w, run, Guard(st)) && NamesApart(st)
    ensures !HitsLive(End(st.config, w, run, Guard(st)), e)
  {
    hide InSetting, StartsIn, HitsLive, MayGet;
    StartsInSetting(st, w);
    AlwaysInSetting(st, w, run);
    var now := End(st.config, w, run, Guard(st));
    assert HitsLive(now, e) ==> exists key, uid, uid' :: MayGet(st, uid, key) && MayGet(st, uid', key) && uid != uid' by {
      if HitsLive(now, e) {
        HitSharesName(st, now, e);
      }
    }
  }
}
