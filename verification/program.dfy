/** The service handler of pkg/services as a program over API calls: which call a worker makes next
    (`Asks`) and where it goes on the reply (`Next`). One step is one API call, so that other workers,
    Rancher and the host clusters can act between any two of them. */
module HandlerProgram {
  import opened Text
  import opened Json
  import opened Api
  import opened Calls
  import opened Constants
  import opened Config
  import opened Errors
  import opened Naming
  import LabelSync

  /** The handler of one host cluster. */
  datatype Host = Host(name: string, config: Config)

  /** A queue item: a service key and the UID the service had when the event was seen. */
  datatype Item = Item(key: string, uid: string)

  /** What the informer's cache holds under a key. */
  datatype Cached = Missing | Found(svc: Service) | CacheError

  datatype Pc =
    | CleanupList(uid: string)
    | CleanupDelete(uid: string, key: Key)
    | NamespaceGet(svc: Service)
    | ClusterList(svc: Service, nsLabels: Labels)
    | ProjectGet(svc: Service, project: string)
    | WorkspaceGet(svc: Service, labels: Labels, target: string)
    | WorkspaceCreate(svc: Service, labels: Labels, target: string)
    | ClusterCreate(svc: Service, labels: Labels, target: string, choice: NameChoice)
    | MgmtList(svc: Service, ready: bool)
    | MgmtPatch(svc: Service, ready: bool, key: Key, change: Change)
    | TokenGet(svc: Service, mgmt: string)
    | SecretGet(svc: Service)
    | PodList(svc: Service)
    | JobList(svc: Service)
    | JobDelete(svc: Service, jobs: seq<Entry>)
    | JobCreate(svc: Service)
    | Finished(err: Option<Error>)

  const DONE := Finished(None)

  function Fails(e: Error): Pc {
    Finished(Some(e))
  }

  // ---- the calls ----

  function ByServiceUid(kind: Kind, uid: string): Query {
    Query(LOCAL, kind, None, HasValue(LABEL_SERVICE_UID, uid))
  }

  function AgentPods(h: Host, svc: Service): Query {
    Query(h.name, PodKind, Some(svc.namespace), HasValue(LABEL_APP, "cattle-cluster-agent"))
  }

  function InstallJobs(h: Host, svc: Service): Query {
    Query(h.name, JobKind, Some(svc.namespace), HasValue(LABEL_INSTALL_JOB, "true"))
  }

  function NamespaceKey(h: Host, svc: Service): Key {
    Key(h.name, NamespaceKind, "", svc.namespace)
  }

  function ProjectKey(h: Host, project: string): Key {
    Key(LOCAL, Project, h.name, project)
  }

  function WorkspaceKey(target: string): Key {
    Key(LOCAL, FleetWorkspace, "", target)
  }

  function TokenKey(mgmt: string): Key {
    Key(LOCAL, RegistrationToken, mgmt, "default-token")
  }

  function SecretKey(h: Host, svc: Service): Key {
    Key(h.name, SecretKind, svc.namespace, "vc-" + svc.name)
  }

  function Count(job: Object, counter: string): int {
    match At(job.body, [counter])
    case Some(Number(n)) => n
    case _ => 0
  }

  function IsReady(obj: Object): bool {
    Flag(obj.body, ["status", "ready"])
  }

  function BaseLabels(h: Host, svc: Service): Labels {
    map[LABEL_SERVICE_UID := svc.uid, LABEL_HOST_CLUSTER := h.name]
  }

  /** The edit of the management cluster: labels synced from the service and, while the provisioning
      cluster is not ready, the cleanup finalizer appended once more or its first occurrence removed. */
  function MgmtChange(h: Host, svc: Service, ready: bool, mgmt: Object): Change {
    var synced := LabelSync.SyncResult(h.config, svc.labels, mgmt.labels);
    if ready then Change(mgmt.labels, synced, mgmt.finalizers, mgmt.finalizers)
    else if Lookup(svc.annotations, ANNOTATION_UNINSTALL) == "true" then
      Change(mgmt.labels, synced[LABEL_TARGET_APP := TargetApp(svc)], mgmt.finalizers, mgmt.finalizers + [FINALIZER_APP])
    else Change(mgmt.labels, synced, mgmt.finalizers, WithoutFirst(mgmt.finalizers, FINALIZER_APP))
  }

  function TargetApp(svc: Service): string {
    Lookup(svc.annotations, ANNOTATION_RELEASE_NAMESPACE) + "_" + Lookup(svc.annotations, ANNOTATION_RELEASE_NAME)
  }

  function WithoutFirst(s: seq<string>, x: string): seq<string> {
    if s == [] then [] else if s[0] == x then s[1..] else [s[0]] + WithoutFirst(s[1..], x)
  }

  /** Cutting out the first occurrence by its position. */
  lemma WithoutFirstAt(s: seq<string>, x: string, idx: nat)
    requires idx <= |s| && x !in s[..idx] && (idx < |s| ==> s[idx] == x)
    ensures WithoutFirst(s, x) == if idx < |s| then s[..idx] + s[idx + 1..] else s
    decreases |s|
  {
    if 0 < idx {
      assert s[0] == s[..idx][0];
      assert s[1..][..idx - 1] == s[..idx][1..];
      WithoutFirstAt(s[1..], x, idx - 1);
    }
  }

  /** The position of the first `x` in `s`, or the length of `s`. */
  method FindFirst(s: seq<string>, x: string) returns (idx: nat)
    ensures idx <= |s| && x !in s[..idx] && (idx < |s| ==> s[idx] == x)
  {
    idx := 0;
    while idx < |s| && s[idx] != x
      invariant idx <= |s| && x !in s[..idx]
    {
      idx := idx + 1;
    }
  }

  // ---- the program ----

  function Start(item: Item, cached: Cached): Pc {
    match cached
    case CacheError => Fails(Wrapped(OtherError))
    case Missing => if item.uid == "" then DONE else CleanupList(item.uid)
    case Found(svc) =>
      if svc.deleting then CleanupList(svc.uid)
      else if svc.clusterIP == "None" || Lookup(svc.annotations, ANNOTATION_SKIP_IMPORT) == "true" then DONE
      else NamespaceGet(svc)
  }

  function Asks(h: Host, pc: Pc): Ask {
    match pc
    case CleanupList(uid) => AskList(ByServiceUid(ProvisioningCluster, uid))
    case CleanupDelete(_, key) => AskDelete(key)
    case NamespaceGet(svc) => AskGet(NamespaceKey(h, svc))
    case ClusterList(svc, _) => AskList(ByServiceUid(ProvisioningCluster, svc.uid))
    case ProjectGet(_, project) => AskGet(ProjectKey(h, project))
    case WorkspaceGet(_, _, target) => AskGet(WorkspaceKey(target))
    case WorkspaceCreate(_, _, target) =>
      AskCreate(LOCAL, FleetWorkspace, target, false, "", map[LABEL_AUTO_CREATED := "true"], map[])
    case ClusterCreate(_, labels, target, choice) =>
      AskCreate(LOCAL, ProvisioningCluster, choice.base, choice.generate, target, labels, map[])
    case MgmtList(svc, _) => AskList(ByServiceUid(ManagementCluster, svc.uid))
    case MgmtPatch(_, _, key, change) => AskPatch(key, change)
    case TokenGet(_, mgmt) => AskGet(TokenKey(mgmt))
    case SecretGet(svc) => AskGet(SecretKey(h, svc))
    case PodList(svc) => AskList(AgentPods(h, svc))
    case JobList(svc) => AskList(InstallJobs(h, svc))
    case JobDelete(_, jobs) => if jobs == [] then AskNothing else AskDelete(jobs[0].key)
    case JobCreate(svc) =>
      AskCreate(h.name, JobKind, "rancher-agent-install-", true, svc.namespace, map[LABEL_INSTALL_JOB := "true"], map[])
    case Finished(_) => AskNothing
  }

  function AfterProject(h: Host, svc: Service, labels: Labels): Pc {
    WorkspaceGet(svc, labels, GetTargetClusterNamespace(h.config, Lookup(labels, LABEL_PROJECT_UID)))
  }

  function AfterWorkspace(h: Host, svc: Service, labels: Labels, target: string): Pc {
    match GetProvisioningClusterName(h.name, svc)
    case None => Fails(Wrapped(OtherError))
    case Some(choice) => ClusterCreate(svc, labels, target, choice)
  }

  function WaitOr(notFound: bool): Pc {
    if notFound then Fails(Wrapped(RancherResourcesPending)) else Fails(Wrapped(Wrapped(ApiError)))
  }

  /** The loop over the listed install jobs, up to its next call. */
  function JobScan(svc: Service, jobs: seq<Entry>): Pc {
    if jobs == [] then JobCreate(svc)
    else if Count(jobs[0].obj, "failed") > 0 then JobDelete(svc, jobs)
    else if Count(jobs[0].obj, "active") > 0 then Fails(AgentInstallJobInProgress)
    else if Count(jobs[0].obj, "succeeded") > 0 then DONE
    else JobScan(svc, jobs[1..])
  }

  /** Where the worker goes when its call got the reply recorded in `a`. */
  function Next(h: Host, pc: Pc, a: Action): Pc {
    if !Answers(Asks(h, pc), a) then pc else
    match pc
    case CleanupList(uid) =>
      (match a.items
       case Ok(entries) =>
         if entries == [] || HostNameOf(entries[0].obj) != h.name then DONE
         else CleanupDelete(uid, entries[0].key)
       case _ => Fails(Wrapped(ApiError)))
    case CleanupDelete(_, _) => if a.done.Ok? then DONE else Fails(Wrapped(ApiError))
    case NamespaceGet(svc) =>
      (match a.got
       case Ok(ns) => ClusterList(svc, ns.labels)
       case _ => Fails(Wrapped(ApiError)))
    case ClusterList(svc, nsLabels) =>
      (match a.items
       case Ok(entries) =>
         if entries != [] then MgmtList(svc, IsReady(entries[0].obj))
         else if LABEL_RANCHER_PROJECT in nsLabels then ProjectGet(svc, nsLabels[LABEL_RANCHER_PROJECT])
         else AfterProject(h, svc, BaseLabels(h, svc)[LABEL_PROJECT_UID := NO_RANCHER_PROJECT])
       case _ => Fails(Wrapped(ApiError)))
    case ProjectGet(svc, project) =>
      (match a.got
       case Ok(p) =>
         AfterProject(h, svc, BaseLabels(h, svc)[LABEL_PROJECT_UID := p.uid][LABEL_PROJECT_NAME := project])
       case _ => Fails(Wrapped(ApiError)))
    case WorkspaceGet(svc, labels, target) =>
      (match a.got
       case Ok(_) => AfterWorkspace(h, svc, labels, target)
       case NotFound => if h.config.fleetAutoCreate then WorkspaceCreate(svc, labels, target) else Fails(OtherError)
       case _ => Fails(Wrapped(ApiError)))
    case WorkspaceCreate(svc, labels, target) =>
      if a.done.Ok? || a.done.AlreadyExists? then AfterWorkspace(h, svc, labels, target) else Fails(Wrapped(ApiError))
    case ClusterCreate(svc, _, _, _) =>
      if a.done.Ok? || a.done.AlreadyExists? then MgmtList(svc, false) else Fails(Wrapped(ApiError))
    case MgmtList(svc, ready) =>
      (match a.items
       case Ok(entries) =>
         if entries == [] then WaitOr(true)
         else MgmtPatch(svc, ready, entries[0].key, MgmtChange(h, svc, ready, entries[0].obj))
       case _ => WaitOr(false))
    case MgmtPatch(svc, ready, key, _) =>
      if a.done.Ok? then (if ready then PodList(svc) else TokenGet(svc, key.name)) else WaitOr(a.done.Conflict?)
    case TokenGet(svc, _) => if a.got.Ok? then SecretGet(svc) else WaitOr(a.got.NotFound?)
    case SecretGet(svc) => if a.got.Ok? then PodList(svc) else WaitOr(a.got.NotFound?)
    case PodList(svc) =>
      (match a.items
       case Ok(pods) => if pods != [] then DONE else JobList(svc)
       case _ => Fails(Wrapped(ApiError)))
    case JobList(svc) =>
      (match a.items
       case Ok(jobs) => JobScan(svc, jobs)
       case _ => Fails(Wrapped(ApiError)))
    case JobDelete(svc, jobs) => if a.done.Ok? then JobScan(svc, jobs[1..]) else Fails(Wrapped(ApiError))
    case JobCreate(_) => if a.done.Ok? then DONE else Fails(Wrapped(ApiError))
    case Finished(_) => pc
  }

  function Worker(h: Host): Program<Pc> {
    Program(pc => Asks(h, pc), (pc, a) => Next(h, pc, a))
  }
}
