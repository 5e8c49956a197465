/** The service handler of pkg/services/handler.go in its own form: methods that make one API call after
    the other. Every method is proved to walk exactly the way `HandlerProgram` describes, whatever the
    servers reply. */
module ServiceHandler {
  import opened Text
  import opened Api
  import opened Calls
  import opened Constants
  import opened Config
  import opened Errors
  import opened Naming
  import opened HandlerProgram
  import opened Reconciles
  import LabelSync

  class Handler {
    const host: Host
    var indexer: map<string, Service>

    constructor (host: Host)
      ensures this.host == host && indexer == map[]
    {
      this.host := host;
      this.indexer := map[];
    }

    /** The run behind `c` is one of this handler's workers, and it is at `pc`. */
    ghost predicate At(c: Client<Pc>, pc: Pc)
      reads c, c.api
    {
      c.OnTrack() && c.program == Worker(host) && c.pc == pc
    }

    /** What the informer's cache holds under a key. */
    function Cache(key: string): Cached
      reads this
    {
      if key in indexer then Found(indexer[key]) else Missing
    }

    /** `cacheBroken` says that the look into the informer's cache fails. */
    method Reconcile(api: ApiServer, item: Item, cacheBroken: bool)
      returns (err: Option<Error>, ghost cached: Cached, ghost run: seq<Action>)
      requires api.Valid()
      modifies api
      ensures cached == if cacheBroken then CacheError else Cache(item.key)
      ensures api.Valid() && api.log == old(api.log) + run
      ensures Walk(Worker(host), Start(item, cached), run, Finished(err))
      ensures Possible(old(api.objects), run) && After(old(api.objects), run) == api.objects
      ensures FaultFree(run) ==>
        Reconciled(host.config, host.name, item, cached, old(api.objects), api.objects, err)
    {
      cached := if cacheBroken then CacheError else Cache(item.key);
      var c := new Client(api, Worker(host), Start(item, cached));
      err := Dispatch(c, item, cacheBroken);
      run := c.Run();
      assert api.log == old(api.log) + run;
      hide Walk, Possible, After, FaultFree, Reconciled, Start;
      api.RunMade(run);
      if FaultFree(run) {
        ReconcileComesTo(host, item, cached, old(api.objects), run, err);
      }
    }

    /** The branches of `Reconcile` after the look into the cache. */
    method Dispatch(c: Client<Pc>, item: Item, cacheBroken: bool) returns (err: Option<Error>)
      requires At(c, Start(item, if cacheBroken then CacheError else Cache(item.key)))
      modifies c, c.api
      ensures At(c, Finished(err))
    {
      hide Client.OnTrack;
      if cacheBroken {
        return Some(Wrapped(OtherError));
      }
      if item.key !in indexer {
        if item.uid == "" {
          return None;
        }
        err := CleanupProvisioningCluster(c, item.uid);
        return;
      }
      var service := indexer[item.key];
      if service.deleting {
        err := CleanupProvisioningCluster(c, service.uid);
        return;
      }
      err := DeployvClusterRancherCluster(c, service);
    }

    method CleanupProvisioningCluster(c: Client<Pc>, uid: string) returns (err: Option<Error>)
      requires At(c, CleanupList(uid))
      modifies c, c.api
      ensures At(c, Finished(err))
    {
      hide Client.OnTrack;
      var cluster, items := c.GetFirstWithLabel(ByServiceUid(ProvisioningCluster, uid));
      if cluster.NotFound? {
        return None;
      }
      if !cluster.Ok? {
        return Some(Wrapped(ApiError));
      }
      if Lookup(cluster.value.obj.labels, LABEL_HOST_CLUSTER) != host.name {
        return None;
      }
      var done, call := c.Delete(cluster.value.key);
      err := if done.Ok? then None else Some(Wrapped(ApiError));
    }

    method DeployvClusterRancherCluster(c: Client<Pc>, service: Service) returns (err: Option<Error>)
      requires !service.deleting && At(c, Start(Item("", ""), Found(service)))
      modifies c, c.api
      ensures At(c, Finished(err))
    {
      hide Client.OnTrack;
      if service.clusterIP == "None" {
        return None;
      }
      if Lookup(service.annotations, ANNOTATION_SKIP_IMPORT) == "true" {
        return None;
      }
      var ns := c.Get(NamespaceKey(host, service));
      if !ns.Ok? {
        return Some(Wrapped(ApiError));
      }
      var clusterReady;
      err, clusterReady := EnsureProvisioningCluster(c, service, ns.value.labels);
      if err.Some? {
        return;
      }
      var resourceErr := GetRancherResources(c, service, clusterReady);
      if resourceErr.Some? {
        return Some(Wrapped(resourceErr.value));
      }
      err := EnsureAgentDeployed(c, service);
    }

    method EnsureProvisioningCluster(c: Client<Pc>, service: Service, nsLabels: Labels)
      returns (err: Option<Error>, ready: bool)
      requires At(c, ClusterList(service, nsLabels))
      modifies c, c.api
      ensures At(c, if err.Some? then Finished(err) else MgmtList(service, ready))
    {
      hide Client.OnTrack;
      ready := false;
      var cluster, items := c.GetFirstWithLabel(ByServiceUid(ProvisioningCluster, service.uid));
      if cluster.Ok? {
        return None, IsReady(cluster.value.obj);
      }
      if !cluster.NotFound? {
        return Some(Wrapped(ApiError)), false;
      }
      var labels := BaseLabels(host, service);
      if LABEL_RANCHER_PROJECT in nsLabels {
        var projectID := nsLabels[LABEL_RANCHER_PROJECT];
        var project := c.Get(ProjectKey(host, projectID));
        if !project.Ok? {
          return Some(Wrapped(ApiError)), false;
        }
        labels := labels[LABEL_PROJECT_UID := project.value.uid][LABEL_PROJECT_NAME := projectID];
      } else {
        labels := labels[LABEL_PROJECT_UID := NO_RANCHER_PROJECT];
      }
      err := CreateProvisioningCluster(c, service, labels);
    }

    /** The creating half of `ensureProvisioningCluster`, from the choice of the workspace on. */
    method CreateProvisioningCluster(c: Client<Pc>, service: Service, labels: Labels) returns (err: Option<Error>)
      requires At(c, AfterProject(host, service, labels))
      modifies c, c.api
      ensures At(c, if err.Some? then Finished(err) else MgmtList(service, false))
    {
      hide Client.OnTrack;
      var target := GetTargetClusterNamespace(host.config, Lookup(labels, LABEL_PROJECT_UID));
      err := EnsureFleetWorkspace(c, service, labels, target);
      if err.Some? {
        return;
      }
      var choice := GetProvisioningClusterName(host.name, service);
      if choice.None? {
        return Some(Wrapped(OtherError));
      }
      var done, call := c.Create(LOCAL, ProvisioningCluster, choice.value.base, choice.value.generate, target, labels,
                                 map[]);
      if !done.Ok? && !done.AlreadyExists? {
        return Some(Wrapped(ApiError));
      }
      return None;
    }

    method EnsureFleetWorkspace(c: Client<Pc>, ghost service: Service, ghost labels: Labels, target: string)
      returns (err: Option<Error>)
      requires At(c, WorkspaceGet(service, labels, target))
      modifies c, c.api
      ensures At(c, if err.Some? then Finished(err) else AfterWorkspace(host, service, labels, target))
    {
      hide Client.OnTrack;
      var workspace := c.Get(WorkspaceKey(target));
      if workspace.Ok? {
        return None;
      }
      if !workspace.NotFound? {
        return Some(Wrapped(ApiError));
      }
      if !host.config.fleetAutoCreate {
        return Some(OtherError);
      }
      var done, call := c.Create(LOCAL, FleetWorkspace, target, false, "", map[LABEL_AUTO_CREATED := "true"], map[]);
      err := if done.Ok? || done.AlreadyExists? then None else Some(Wrapped(ApiError));
    }

    /** The edited labels and finalizers of the management cluster. */
    method EditManagementCluster(service: Service, ready: bool, mgmt: Object) returns (change: Change)
      ensures change == MgmtChange(host, service, ready, mgmt)
    {
      var labels := new LabelSync.LabelMap(mgmt.labels);
      LabelSync.SyncLabels(host.config, service.labels, labels);
      var finalizers := mgmt.finalizers;
      if !ready {
        if Lookup(service.annotations, ANNOTATION_UNINSTALL) == "true" {
          finalizers := finalizers + [FINALIZER_APP];
          labels.entries := labels.entries[LABEL_TARGET_APP := TargetApp(service)];
        } else {
          var idx := FindFirst(finalizers, FINALIZER_APP);
          WithoutFirstAt(finalizers, FINALIZER_APP, idx);
          if idx < |finalizers| {
            finalizers := finalizers[..idx] + finalizers[idx + 1..];
          }
        }
      }
      change := Change(mgmt.labels, labels.entries, mgmt.finalizers, finalizers);
    }

    method GetRancherResources(c: Client<Pc>, service: Service, clusterReady: bool) returns (err: Option<Error>)
      requires At(c, MgmtList(service, clusterReady))
      modifies c, c.api
      ensures At(c, if err.Some? then Fails(Wrapped(err.value)) else PodList(service))
    {
      hide Client.OnTrack;
      var mgmt, items := c.GetFirstWithLabel(ByServiceUid(ManagementCluster, service.uid));
      if !mgmt.Ok? {
        return Some(if mgmt.NotFound? then RancherResourcesPending else Wrapped(ApiError));
      }
      var change := EditManagementCluster(service, clusterReady, mgmt.value.obj);
      var done, call := c.Patch(mgmt.value.key, change);
      if !done.Ok? {
        return Some(if done.Conflict? then RancherResourcesPending else Wrapped(ApiError));
      }
      if clusterReady {
        return None;
      }
      err := AwaitTokenAndSecret(c, service, mgmt.value.key.name);
    }

    /** The tail of `getRancherResources` for a cluster that is not ready yet. */
    method AwaitTokenAndSecret(c: Client<Pc>, service: Service, mgmt: string) returns (err: Option<Error>)
      requires At(c, TokenGet(service, mgmt))
      modifies c, c.api
      ensures At(c, if err.Some? then Fails(Wrapped(err.value)) else PodList(service))
    {
      hide Client.OnTrack;
      var token := c.Get(TokenKey(mgmt));
      if !token.Ok? {
        return Some(if token.NotFound? then RancherResourcesPending else Wrapped(ApiError));
      }
      var secret := c.Get(SecretKey(host, service));
      if !secret.Ok? {
        return Some(if secret.NotFound? then RancherResourcesPending else Wrapped(ApiError));
      }
      return None;
    }

    method EnsureAgentDeployed(c: Client<Pc>, service: Service) returns (err: Option<Error>)
      requires At(c, PodList(service))
      modifies c, c.api
      ensures At(c, Finished(err))
    {
      hide Client.OnTrack;
      var pods := c.List(AgentPods(host, service));
      if !pods.Ok? {
        return Some(Wrapped(ApiError));
      }
      if |pods.value| > 0 {
        return None;
      }
      var jobs := c.List(InstallJobs(host, service));
      if !jobs.Ok? {
        return Some(Wrapped(ApiError));
      }
      var settled;
      err, settled := DeleteFailedJobs(c, service, jobs.value);
      if settled {
        return;
      }
      var done, call := c.Create(host.name, JobKind, "rancher-agent-install-", true, service.namespace,
                                 map[LABEL_INSTALL_JOB := "true"], map[]);
      err := if done.Ok? then None else Some(Wrapped(ApiError));
    }

    /** The loop over the install jobs; `settled` says that no new job is to be created. */
    method DeleteFailedJobs(c: Client<Pc>, service: Service, jobs: seq<Entry>)
      returns (err: Option<Error>, settled: bool)
      requires At(c, JobScan(service, jobs))
      modifies c, c.api
      ensures At(c, if settled then Finished(err) else JobCreate(service))
    {
      hide Client.OnTrack;
      for i := 0 to |jobs|
        invariant At(c, JobScan(service, jobs[i..]))
      {
        assert jobs[i..][0] == jobs[i] && jobs[i..][1..] == jobs[i + 1..];
        if Count(jobs[i].obj, "failed") > 0 {
          var done, call := c.Delete(jobs[i].key);
          if !done.Ok? {
            return Some(Wrapped(ApiError)), true;
          }
        } else if Count(jobs[i].obj, "active") > 0 {
          return Some(AgentInstallJobInProgress), true;
        } else if Count(jobs[i].obj, "succeeded") > 0 {
          return None, true;
        }
      }
      return None, false;
    }
  }
}
