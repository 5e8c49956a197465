/** What one reconcile of a service comes to when no call fails and nobody acts in between, in the terms of the stores
    before and after alone. The program does not occur in it; `Reconciles` proves that it keeps to it. */
module Outcomes {
  import opened Text
  import opened Json
  import opened Api
  import opened Constants
  import opened Config
  import opened Errors
  import opened Naming
  import LabelSync

  /** The reconcile ends in order to be tried again later, without counting as a failure. */
  predicate Waits(err: Option<Error>) {
    err.Some? && IsWaiting(err.value)
  }

  predicate Errs(err: Option<Error>) {
    err.Some? && !IsWaiting(err.value)
  }

  predicate Unchanged(s: Store, s': Store, k: Key) {
    (k in s' <==> k in s) && (k in s ==> s'[k] == s[k])
  }

  /** The object was asked to go: it is gone, or marked for deletion while it has finalizers. */
  predicate AskedToGo(s: Store, s': Store, k: Key)
    requires k in s
  {
    if s[k].finalizers == [] then k !in s' else k in s' && s'[k] == s[k].(deleting := true)
  }

  /** A cluster of Rancher's that is labelled with the UID of the service. */
  predicate IsFor(s: Store, k: Key, kind: Kind, uid: string) {
    && k in s && k.cluster == LOCAL && k.kind == kind
    && LABEL_SERVICE_UID in s[k].labels && s[k].labels[LABEL_SERVICE_UID] == uid
  }

  ghost predicate HasFor(s: Store, kind: Kind, uid: string) {
    exists k :: IsFor(s, k, kind, uid)
  }

  // ---- a service that is gone or going ----

  /** The cluster carries the label of this host. */
  predicate IsOnHost(s: Store, k: Key, host: string)
    requires k in s
  {
    Lookup(s[k].labels, LABEL_HOST_CLUSTER) == host
  }

  /** One cluster of the service is asked to go, if it is one of this host's. */
  ghost predicate CleanedUp(host: string, uid: string, s: Store, s': Store, err: Option<Error>) {
    && err == None
    && if !HasFor(s, ProvisioningCluster, uid) then s' == s
       else exists k :: IsFor(s, k, ProvisioningCluster, uid) && WentIfHere(host, s, s', k)
  }

  ghost predicate WentIfHere(host: string, s: Store, s': Store, k: Key)
    requires k in s
  {
    && (if IsOnHost(s, k, host) then AskedToGo(s, s', k) else Unchanged(s, s', k))
    && forall j | j != k :: Unchanged(s, s', j)
  }

  // ---- the provisioning cluster ----

  /** The project whose label the service's namespace carries is there, and these are the labels of a new cluster. */
  predicate LabelsFrom(host: string, svc: Service, s: Store, labels: Labels) {
    var namespace := Key(host, NamespaceKind, "", svc.namespace);
    && namespace in s
    && if LABEL_RANCHER_PROJECT in s[namespace].labels then
         var project := Key(LOCAL, Project, host, s[namespace].labels[LABEL_RANCHER_PROJECT]);
         && project in s
         && labels == map[LABEL_SERVICE_UID := svc.uid, LABEL_HOST_CLUSTER := host, LABEL_PROJECT_UID := s[project].uid,
                          LABEL_PROJECT_NAME := project.name]
       else
         labels == map[LABEL_SERVICE_UID := svc.uid, LABEL_HOST_CLUSTER := host,
                       LABEL_PROJECT_UID := NO_RANCHER_PROJECT]
  }

  /** The workspace that is configured for the project of these labels. */
  function WorkspaceFor(c: Config, labels: Labels): Key {
    Key(LOCAL, FleetWorkspace, "", GetTargetClusterNamespace(c, Lookup(labels, LABEL_PROJECT_UID)))
  }

  /** The object is a new one with these labels and nothing else. */
  predicate IsNew(obj: Object, labels: Labels) {
    obj.labels == labels && obj.finalizers == [] && !obj.deleting && obj.body == map[]
  }

  /** A workspace is there afterwards, made if need be. */
  ghost predicate WorkspaceEnsured(c: Config, key: Key, s: Store, s': Store) {
    if key in s then s' == s
    else c.fleetAutoCreate && exists obj :: IsNew(obj, map[LABEL_AUTO_CREATED := "true"]) && s' == s[key := obj]
  }

  /** A cluster was made in this workspace under a name that the service may have, unless that was taken. */
  ghost predicate ClusterMade(host: string, svc: Service, labels: Labels, target: string, s: Store, s': Store) {
    exists name :: MayBeNamed(host, svc, name) && MadeUnder(Key(LOCAL, ProvisioningCluster, target, name), labels, s, s')
  }

  ghost predicate MadeUnder(key: Key, labels: Labels, s: Store, s': Store) {
    if key in s then s' == s else exists obj :: IsNew(obj, labels) && s' == s[key := obj]
  }

  ghost predicate NewlyMade(c: Config, host: string, svc: Service, labels: Labels, s: Store, mid: Store, s': Store) {
    && LabelsFrom(host, svc, s, labels) && WorkspaceEnsured(c, WorkspaceFor(c, labels), s, mid)
    && ClusterMade(host, svc, labels, WorkspaceFor(c, labels).name, mid, s')
  }

  /** The service had a cluster, or one was made for it; `ready` says what is known of it. */
  ghost predicate Ensured(c: Config, host: string, svc: Service, s: Store, s': Store, ready: bool) {
    if HasFor(s, ProvisioningCluster, svc.uid) then
      s' == s && exists k :: IsFor(s, k, ProvisioningCluster, svc.uid) && ready == Flag(s[k].body, ["status", "ready"])
    else
      !ready && exists labels, mid :: NewlyMade(c, host, svc, labels, s, mid, s')
  }

  /** None could be made: the project is missing, or the workspace is and may not be made, or the name is refused. */
  ghost predicate NotEnsured(c: Config, host: string, svc: Service, s: Store, s': Store) {
    && !HasFor(s, ProvisioningCluster, svc.uid)
    && ((s' == s && forall labels :: !LabelsFrom(host, svc, s, labels))
        || exists labels :: LabelsFrom(host, svc, s, labels) && NoPlaceFor(c, host, svc, labels, s, s'))
  }

  ghost predicate NoPlaceFor(c: Config, host: string, svc: Service, labels: Labels, s: Store, s': Store) {
    var workspace := WorkspaceFor(c, labels);
    || (workspace !in s && !c.fleetAutoCreate && s' == s)
    || ((forall name :: !MayBeNamed(host, svc, name)) && WorkspaceEnsured(c, workspace, s, s'))
  }

  // ---- the management cluster, token and secret ----

  function LabelAt(labels: Labels, k: string): Option<string> {
    if k in labels then Some(labels[k]) else None
  }

  /** The first `x` is cut out. */
  ghost predicate IsFirstCut(was: seq<string>, x: string, now: seq<string>) {
    exists i | 0 <= i < |was| :: was[i] == x && x !in was[..i] && now == was[..i] + was[i + 1..]
  }

  /** The finalizers after an edit: unchanged once the cluster is ready; before, one more of the operator's own for a
      service that asks for uninstallation, else the first of these is cut out. */
  ghost predicate FinalizersEdited(svc: Service, ready: bool, was: seq<string>, now: seq<string>) {
    if ready then now == was
    else if Lookup(svc.annotations, ANNOTATION_UNINSTALL) == "true" then now == was + [FINALIZER_APP]
    else if FINALIZER_APP !in was then now == was
    else IsFirstCut(was, FINALIZER_APP, now)
  }

  /** The label that the service calls for: the app to uninstall, or what it has itself under a synced key. */
  function Wanted(c: Config, svc: Service, ready: bool, was: Labels, k: string): Option<string> {
    if k == LABEL_TARGET_APP && !ready && Lookup(svc.annotations, ANNOTATION_UNINSTALL) == "true" then
      Some(Lookup(svc.annotations, ANNOTATION_RELEASE_NAMESPACE) + "_" + Lookup(svc.annotations, ANNOTATION_RELEASE_NAME))
    else if !LabelSync.Synced(c, k) then LabelAt(was, k)
    else if Lookup(svc.labels, k) == "" then None
    else Some(svc.labels[k])
  }

  ghost predicate Edited(c: Config, svc: Service, ready: bool, was: Object, now: Object) {
    && now == was.(labels := now.labels, finalizers := now.finalizers)
    && (forall k :: LabelAt(now.labels, k) == Wanted(c, svc, ready, was.labels, k))
    && FinalizersEdited(svc, ready, was.finalizers, now.finalizers)
  }

  /** Everything is there that the agent needs to be installed. */
  predicate CanInstall(host: string, svc: Service, ready: bool, s: Store, mgmt: string) {
    ready || (Key(LOCAL, RegistrationToken, mgmt, "default-token") in s
              && Key(host, SecretKind, svc.namespace, "vc-" + svc.name) in s)
  }

  /** The management cluster was edited, which a cluster without finalizers that is being deleted does not survive. */
  ghost predicate ManagementEdited(c: Config, svc: Service, ready: bool, s: Store, s': Store, k: Key) {
    && IsFor(s, k, ManagementCluster, svc.uid)
    && exists edited :: Edited(c, svc, ready, s[k], edited) && s' == Stored(s, k, edited)
  }

  ghost predicate ResourcesThere(c: Config, host: string, svc: Service, ready: bool, s: Store, s': Store) {
    exists k :: ManagementEdited(c, svc, ready, s, s', k) && CanInstall(host, svc, ready, s, k.name)
  }

  ghost predicate ResourcesPending(c: Config, host: string, svc: Service, ready: bool, s: Store, s': Store) {
    if !HasFor(s, ManagementCluster, svc.uid) then s' == s
    else exists k :: ManagementEdited(c, svc, ready, s, s', k) && !CanInstall(host, svc, ready, s, k.name)
  }

  // ---- the agent ----

  predicate IsAgent(s: Store, k: Key, host: string, namespace: string) {
    && k in s && k.cluster == host && k.kind == PodKind && k.namespace == namespace
    && LABEL_APP in s[k].labels && s[k].labels[LABEL_APP] == "cattle-cluster-agent"
  }

  predicate IsInstallJob(s: Store, k: Key, host: string, namespace: string) {
    && k in s && k.cluster == host && k.kind == JobKind && k.namespace == namespace
    && LABEL_INSTALL_JOB in s[k].labels && s[k].labels[LABEL_INSTALL_JOB] == "true"
  }

  /** The job's status counts some such pod. */
  predicate Counts(job: Object, counter: string) {
    counter in job.body && job.body[counter].Number? && job.body[counter].number > 0
  }

  /** An install job that has failed. */
  predicate IsFailedJob(s: Store, k: Key, host: string, namespace: string) {
    IsInstallJob(s, k, host, namespace) && Counts(s[k], "failed")
  }

  /** An install job that is running, or has succeeded, and has not failed. */
  predicate IsSettledJob(s: Store, k: Key, host: string, namespace: string) {
    && IsInstallJob(s, k, host, namespace) && !Counts(s[k], "failed")
    && (Counts(s[k], "active") || Counts(s[k], "succeeded"))
  }

  /** Failed jobs may have been asked to go; all else is unchanged. */
  ghost predicate Tidied(host: string, namespace: string, s: Store, s': Store) {
    forall k :: Unchanged(s, s', k) || (IsFailedJob(s, k, host, namespace) && AskedToGo(s, s', k))
  }

  /** Every failed job was asked to go; all else is unchanged. */
  ghost predicate AllTidied(host: string, namespace: string, s: Store, s': Store) {
    forall k :: if IsFailedJob(s, k, host, namespace) then AskedToGo(s, s', k) else Unchanged(s, s', k)
  }

  /** A key that the server may give a new install job. */
  predicate IsJobKey(k: Key, host: string, namespace: string) {
    k.cluster == host && k.kind == JobKind && k.namespace == namespace && CompletedByFive("rancher-agent-install-", k.name)
  }

  /** A new job was made, or refused because the server drew a name that is taken. */
  ghost predicate JobMade(host: string, namespace: string, s: Store, s': Store, err: Option<Error>) {
    || (err == None && exists k, obj :: IsJobKey(k, host, namespace) && k !in s
                                        && IsNew(obj, map[LABEL_INSTALL_JOB := "true"]) && s' == s[k := obj])
    || (Errs(err) && s' == s && exists k :: IsJobKey(k, host, namespace) && k in s)
  }

  /** The settled job is still running, or it is done. */
  predicate SettledAs(job: Object, err: Option<Error>) {
    if Counts(job, "active") then Waits(err) else err == None
  }

  ghost predicate AgentEnsured(host: string, namespace: string, s: Store, s': Store, err: Option<Error>) {
    if exists k :: IsAgent(s, k, host, namespace) then s' == s && err == None
    else if exists k :: IsSettledJob(s, k, host, namespace) then
      Tidied(host, namespace, s, s') && exists k :: IsSettledJob(s, k, host, namespace) && SettledAs(s[k], err)
    else exists mid :: AllTidied(host, namespace, s, mid) && JobMade(host, namespace, mid, s', err)
  }

  // ---- all of it ----

  /** The service is one the operator imports. */
  predicate IsImported(svc: Service) {
    svc.clusterIP != "None" && Lookup(svc.annotations, ANNOTATION_SKIP_IMPORT) != "true"
  }

  /** From a service with a provisioning cluster on. */
  ghost predicate Installed(c: Config, host: string, svc: Service, ready: bool, s: Store, s': Store, err: Option<Error>) {
    || (ResourcesPending(c, host, svc, ready, s, s') && Waits(err))
    || exists mid :: ResourcesThere(c, host, svc, ready, s, mid) && AgentEnsured(host, svc.namespace, mid, s', err)
  }

  /** What becomes of a service that is there and not being deleted. */
  ghost predicate Deployed(c: Config, host: string, svc: Service, s: Store, s': Store, err: Option<Error>) {
    if !IsImported(svc) then s' == s && err == None
    else if Key(host, NamespaceKind, "", svc.namespace) !in s then s' == s && Errs(err)
    else
      || (NotEnsured(c, host, svc, s, s') && Errs(err))
      || exists mid, ready :: Ensured(c, host, svc, s, mid, ready) && Installed(c, host, svc, ready, mid, s', err)
  }
}
