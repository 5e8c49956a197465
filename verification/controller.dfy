/** The reconciler of management clusters (internal/controller/clusters/cluster_controller.go) in its own form.
    Every sync method is proved to walk exactly the way its program describes, whatever the servers reply. */
module Controller {
  import opened Text
  import opened Json
  import opened Api
  import opened Calls
  import opened Constants
  import opened Errors
  import Rbac
  import Stale
  import Finalizers
  import HandlerProgram
  import opened Peers

  /** A condition of a cluster's status: its type and status are texts with these values. */
  predicate IsCondition(c: Json, kind: string, status: string) {
    && c.Tree?
    && "type" in c.fields && c.fields["type"] == Literal(kind)
    && "status" in c.fields && c.fields["status"] == Literal(status)
  }

  /** The listed conditions, or none where there is no such list. */
  function Conditions(cluster: Object): seq<Json> {
    match GetNested(cluster.body, ["status", "conditions"], WantList)
    case Some(List(items)) => items
    case _ => []
  }

  predicate HasCondition(cluster: Object, kind: string, status: string) {
    exists i | 0 <= i < |Conditions(cluster)| :: IsCondition(Conditions(cluster)[i], kind, status)
  }

  /** Wherever the status lists conditions, ready is what its conditions say; without such a list nothing is. */
  lemma ReadyAsListed(cluster: Object)
    requires "status" in cluster.body && cluster.body["status"].Tree?
    ensures var status := cluster.body["status"].fields;
      HasCondition(cluster, "Ready", "True") <==>
        "conditions" in status && status["conditions"].List?
        && exists c | c in status["conditions"].items :: IsCondition(c, "Ready", "True")
  {
    var keys, status := ["status", "conditions"], cluster.body["status"].fields;
    assert keys[1..] == ["conditions"];
    assert GetNested(cluster.body, keys, WantList) == GetNested(status, ["conditions"], WantList);
    var listed := Conditions(cluster);
    assert "conditions" in status && status["conditions"].List? ==> listed == status["conditions"].items;
    assert forall c | c in listed :: exists i :: 0 <= i < |listed| && listed[i] == c;
    hide GetNested, IsCondition;
  }

  method IsClusterReady(cluster: Object) returns (ready: bool)
    ensures ready <==> HasCondition(cluster, "Ready", "True")
  {
    var conditions := Conditions(cluster);
    for i := 0 to |conditions|
      invariant forall j | 0 <= j < i :: !IsCondition(conditions[j], "Ready", "True")
    {
      if !conditions[i].Tree? {
        continue;
      }
      if IsCondition(conditions[i], "Ready", "True") {
        return true;
      }
    }
    return false;
  }

  /** The calls of a cleanup, and its error. */
  predicate CleanedUp(m: Stale.Cluster, uninstalled: bool, run: seq<Action>, err: Option<Error>) {
    match Finalizers.Decide(m.obj, uninstalled)
    case Leave => err == None && run == []
    case Refuse => err == Some(OtherError) && run == []
    case Edit(change) =>
      && |run| == 1 && run[0].Patch? && run[0].key == m.key && run[0].change == change
      && err == if run[0].done.Ok? || run[0].done.NotFound? then None else Some(OtherError)
  }

  /** What the set-up of clients and the uninstall request come to, and the outcome of the resource sync. */
  datatype Surroundings = Surroundings(reachable: bool, uninstalled: bool, attempt: Attempt, metrics: Option<Error>)

  function ClusterKey(name: string): Key {
    Key(LOCAL, ManagementCluster, "", name)
  }

  /** The calls that the parts of one reconcile made, and their errors. */
  datatype Account = Account(stale: seq<Action>, staleErr: Option<Error>, cleanup: seq<Action>,
      cleanupErr: Option<Error>,
                             rbac: seq<Action>, rbacErr: Option<Error>)

  const NO_CALLS := Account([], None, [], None, [], None)

  /** Every part did what its program says, for the cluster `m` as it was read. */
  ghost predicate Accounts(name: string, m: Object, hosts: set<string>, env: Surroundings, done: Account) {
    var cluster := Stale.Cluster(ClusterKey(name), m);
    var target := Rbac.Target(name, m.labels);
    && Walk(Stale.Sweep(cluster), Stale.Start(cluster, HostNameOf(m) in hosts, env.reachable), done.stale,
            Stale.Finished(done.staleErr))
    && CleanedUp(cluster, env.uninstalled, done.cleanup, done.cleanupErr)
    && Walk(Rbac.Pass(target), Rbac.Start(target), done.rbac, Rbac.Finished(done.rbacErr))
  }

  class ClusterReconciler {
    var peers: map<string, nat>
    var handlers: seq<Launched>

    constructor ()
      ensures Book() == EMPTY
    {
      peers := map[];
      handlers := [];
    }

    function Book(): Book
      reads this
    {
      Peers.Book(peers, handlers)
    }

    // ---- the book of handlers ----

    /** The branch of `Reconcile` for a cluster that is gone. */
    method StopHandler(name: string)
      requires Exact(Book())
      modifies this
      ensures Book() == Dropped(old(Book()), name) && Exact(Book())
      ensures HandlerDown(old(Book()), Book(), name)
    {
      DroppedExact(Book(), name);
      DroppingStops(Book(), name);
      assert name in peers ==> Runs(Book(), peers[name], name);
      if name in peers {
        var i := peers[name];
        handlers := handlers[i := handlers[i].(cancelled := true)];
        peers := peers - {name};
      }
    }

    /** `attempt` says how far the set-up of clients and informer gets. */
    method SyncvClusterInstallHandler(name: string, attempt: Attempt) returns (err: Option<Error>)
      requires Exact(Book())
      modifies this
      ensures Book() == Installed(old(Book()), name, attempt) && Exact(Book())
      ensures err.None? <==> name in peers
      ensures err.None? <==> name in old(peers) || attempt.Works?
      ensures if err.None? then HandlerUp(old(Book()), Book(), name) else Book() == old(Book())
    {
      InstalledExact(Book(), name, attempt);
      InstallingRuns(Book(), name, attempt);
      hide HandlerUp;
      if name in peers {
        return None;
      }
      if attempt.NoRestConfig? || attempt.NoClient? || attempt.NoEventHandler? {
        return Some(OtherError);
      }
      peers := peers[name := |handlers|];
      handlers := handlers + [Launched(name, false)];
      return None;
    }

    // ---- stale clusters ----

    ghost predicate AtStale(c: Client<Stale.Pc>, m: Stale.Cluster, pc: Stale.Pc)
      reads c, c.api
    {
      c.OnTrack() && c.program == Stale.Sweep(m) && c.pc == pc
    }

    method SyncStaleResources(c: Client<Stale.Pc>, m: Stale.Cluster, reachable: bool) returns (err: Option<Error>)
      requires AtStale(c, m, Stale.Start(m, HostNameOf(m.obj) in peers, reachable))
      modifies c, c.api
      ensures AtStale(c, m, Stale.Finished(err))
    {
      hide Client.OnTrack;
      var serviceUID := Lookup(m.obj.labels, LABEL_SERVICE_UID);
      var hostClusterName := Lookup(m.obj.labels, LABEL_HOST_CLUSTER);
      if serviceUID == "" || hostClusterName == "" {
        return None;
      }
      if hostClusterName !in peers {
        return None;
      }
      if !reachable {
        return Some(Wrapped(OtherError));
      }
      var services := c.List(Stale.Services(hostClusterName));
      if !services.Ok? {
        return Some(Wrapped(ApiError));
      }
      for i := 0 to |services.value|
        invariant AtStale(c, m, if Stale.HasUidIn(services.value, serviceUID) then Stale.DONE else Stale.ClusterDelete)
        invariant forall j | 0 <= j < i :: services.value[j].obj.uid != serviceUID
      {
        if services.value[i].obj.uid == serviceUID {
          return None;
        }
      }
      var done, call := c.Delete(m.key);
      err := if done.Ok? || done.NotFound? then None else Some(Wrapped(ApiError));
    }

    // ---- cleaning up the app ----

    method SyncCleanup(api: ApiServer, m: Stale.Cluster, uninstalled: bool)
      returns (err: Option<Error>, ghost run: seq<Action>)
      requires api.Valid()
      modifies api
      ensures api.Valid() && api.log == old(api.log) + run
      ensures CleanedUp(m, uninstalled, run, err)
    {
      run := [];
      if !m.obj.deleting {
        return None, run;
      }
      if Lookup(m.obj.labels, LABEL_TARGET_APP) == "" {
        return None, run;
      }
      var app := ParseHalves(Lookup(m.obj.labels, LABEL_TARGET_APP), '_');
      if app.None? {
        return Some(OtherError), run;
      }
      if !uninstalled {
        return Some(OtherError), run;
      }
      if FINALIZER_APP !in m.obj.finalizers {
        return None, run;
      }
      var idx := HandlerProgram.FindFirst(m.obj.finalizers, FINALIZER_APP);
      HandlerProgram.WithoutFirstAt(m.obj.finalizers, FINALIZER_APP, idx);
      var finalizers := m.obj.finalizers[..idx] + m.obj.finalizers[idx + 1..];
      var done, call := api.Patch(m.key, Change(m.obj.labels, m.obj.labels, m.obj.finalizers, finalizers));
      run := [call];
      err := if done.Ok? || done.NotFound? then None else Some(OtherError);
    }

    // ---- role bindings ----

    ghost predicate AtRbac(c: Client<Rbac.Pc>, t: Rbac.Target, pc: Rbac.Pc)
      reads c, c.api
    {
      c.OnTrack() && c.program == Rbac.Pass(t) && c.pc == pc
    }

    method SyncRancherRBAC(c: Client<Rbac.Pc>, t: Rbac.Target) returns (err: Option<Error>)
      requires AtRbac(c, t, Rbac.Start(t))
      modifies c, c.api
      ensures AtRbac(c, t, Rbac.Finished(err))
    {
      hide Client.OnTrack, Filtered;
      var projectUID := Lookup(t.labels, LABEL_PROJECT_UID);
      var projectName := Lookup(t.labels, LABEL_PROJECT_NAME);
      var hostClusterName := Lookup(t.labels, LABEL_HOST_CLUSTER);
      if projectName == "" || projectUID == "" || hostClusterName == "" {
        return None;
      }
      var project := c.Get(Key(LOCAL, Project, hostClusterName, projectName));
      if !project.Ok? {
        return Some(Wrapped(ApiError));
      }
      if project.value.uid != projectUID {
        return Some(OtherError);
      }
      var prtbNamespace := projectName;
      var backingNamespace := Str(project.value.body, ["status", "backingNamespace"]);
      if backingNamespace != "" {
        prtbNamespace := backingNamespace;
      }
      var projectSources;
      err, projectSources := ProjectSources(c, t, prtbNamespace);
      if err.Some? {
        return;
      }
      var clusterBindings := c.List(Rbac.HostBindings(t));
      if !clusterBindings.Ok? {
        return Some(Wrapped(ApiError));
      }
      var hostSources := FilterItems(clusterBindings.value, "cluster-owner", true, ["roleTemplateName"]);
      var clusterOwners, failed := GrantOwnership(c, t, projectSources + hostSources);
      if failed {
        return Some(Wrapped(ApiError));
      }
      err := RevokeSurplus(c, t, clusterOwners);
    }

    /** Listing and filtering of the project's bindings. */
    method ProjectSources(c: Client<Rbac.Pc>, t: Rbac.Target, namespace: string)
      returns (err: Option<Error>, sources: seq<Entry>)
      requires AtRbac(c, t, Rbac.PrtbList(namespace))
      modifies c, c.api
      ensures AtRbac(c, t, if err.Some? then Rbac.Finished(err) else Rbac.CrtbList(sources))
    {
      hide Client.OnTrack, Filtered;
      sources := [];
      var listed := c.List(Query(LOCAL, ProjectBinding, if namespace == "" then None else Some(namespace), Anything));
      if !listed.Ok? {
        return Some(Wrapped(ApiError)), [];
      }
      var ofProject := FilterItems(listed.value, Rbac.ProjectRef(t), true, ["projectName"]);
      var owners := FilterItems(ofProject, "project-owner", true, ["roleTemplateName"]);
      var members := FilterItems(ofProject, "project-member", true, ["roleTemplateName"]);
      return None, owners + members;
    }

    /** The granting loop: fills the set of owners and creates the grants that are missing. */
    method GrantOwnership(c: Client<Rbac.Pc>, t: Rbac.Target, sources: seq<Entry>)
      returns (clusterOwners: set<string>, failed: bool)
      requires AtRbac(c, t, Rbac.GrantAt(sources, 0, false))
      modifies c, c.api
      ensures AtRbac(c, t, if failed then Rbac.Fails(Wrapped(ApiError)) else Rbac.ManagedList(clusterOwners))
    {
      hide Client.OnTrack, Rbac.User, Rbac.GrantBody, Lookup;
      clusterOwners, failed := {}, false;
      for i := 0 to |sources|
        invariant AtRbac(c, t, Rbac.GrantAt(sources, i, failed))
        invariant !failed ==> clusterOwners == Rbac.Users(sources[..i])
      {
        var user := Rbac.User(sources[i].obj);
        if user == "" {
          failed := true;
          continue;
        }
        clusterOwners := clusterOwners + {user};
        assert sources[..i + 1] == sources[..i] + [sources[i]];
        var binding := c.Get(Rbac.GrantKey(t, user));
        if !binding.Ok? && !binding.NotFound? {
          failed := true;
          continue;
        }
        if binding.Ok? {
          continue;
        }
        var parentLabel := LABEL_PARENT_PRTB;
        if sources[i].key.kind == ClusterBinding {
          parentLabel := LABEL_PARENT_CRTB;
        }
        var labels := map[LABEL_SERVICE_UID := Lookup(t.labels, LABEL_SERVICE_UID), parentLabel := sources[i].key.name];
        var done, call := c.Create(LOCAL, ClusterBinding, "vcluster-" + user + "-co", false, t.name, labels,
                                   Rbac.GrantBody(t, user));
        if !done.Ok? {
          failed := true;
        }
      }
      assert sources[..|sources|] == sources;
    }

    /** The revoking loop: deletes the operator's bindings of users who are no owners. */
    method RevokeSurplus(c: Client<Rbac.Pc>, t: Rbac.Target, clusterOwners: set<string>) returns (err: Option<Error>)
      requires AtRbac(c, t, Rbac.ManagedList(clusterOwners))
      modifies c, c.api
      ensures AtRbac(c, t, Rbac.Finished(err))
    {
      hide Client.OnTrack, Rbac.User;
      var managed := c.List(Rbac.ManagedBindings(t));
      if !managed.Ok? {
        return Some(Wrapped(ApiError));
      }
      if |managed.value| == 0 {
        return None;
      }
      var failed := false;
      for i := 0 to |managed.value|
        invariant AtRbac(c, t, Rbac.RevokeAt(clusterOwners, managed.value, i, failed))
      {
        var user := Rbac.User(managed.value[i].obj);
        if user == "" {
          failed := true;
          continue;
        }
        if user in clusterOwners {
          continue;
        }
        var done, call := c.Delete(managed.value[i].key);
        if !done.Ok? && !done.NotFound? {
          failed := true;
        }
      }
      err := if failed then Some(ApiError) else None;
    }

    // ---- the whole reconcile ----

    method SweepOnce(api: ApiServer, m: Stale.Cluster, reachable: bool) returns (err: Option<Error>, ghost run: seq<Action>)
      requires api.Valid()
      modifies api
      ensures api.Valid() && api.log == old(api.log) + run
      ensures Walk(Stale.Sweep(m), Stale.Start(m, HostNameOf(m.obj) in peers, reachable), run, Stale.Finished(err))
      ensures Possible(old(api.objects), run) && After(old(api.objects), run) == api.objects
    {
      var c := new Client(api, Stale.Sweep(m), Stale.Start(m, HostNameOf(m.obj) in peers, reachable));
      err := SyncStaleResources(c, m, reachable);
      run := c.Run();
      assert api.log == old(api.log) + run;
      hide Walk, Possible, After;
      api.RunMade(run);
    }

    method PassOnce(api: ApiServer, t: Rbac.Target) returns (err: Option<Error>, ghost run: seq<Action>)
      requires api.Valid()
      modifies api
      ensures api.Valid() && api.log == old(api.log) + run
      ensures Walk(Rbac.Pass(t), Rbac.Start(t), run, Rbac.Finished(err))
      ensures Possible(old(api.objects), run) && After(old(api.objects), run) == api.objects
    {
      var c := new Client(api, Rbac.Pass(t), Rbac.Start(t));
      err := SyncRancherRBAC(c, t);
      run := c.Run();
      assert api.log == old(api.log) + run;
      hide Walk, Possible, After;
      api.RunMade(run);
    }

    /** The parts of a reconcile; each is done whether or not those before it failed. */
    method SyncAll(api: ApiServer, name: string, m: Object, env: Surroundings) returns (requeue: bool, ghost done: Account)
      requires api.Valid() && Exact(Book())
      modifies api, this
      ensures api.Valid() && api.log == old(api.log) + done.stale + done.cleanup + done.rbac
      ensures Accounts(name, m, old(peers.Keys), env, done)
      ensures Exact(Book())
      ensures Book() == if HasCondition(m, "Ready", "True") then Installed(old(Book()), name, env.attempt) else old(Book())
      ensures HasCondition(m, "Ready", "True") && (name in old(peers) || env.attempt.Works?) ==>
        HandlerUp(old(Book()), Book(), name)
      ensures requeue <==> done.staleErr.Some? || done.cleanupErr.Some? || done.rbacErr.Some?
                           || (HasCondition(m, "Ready", "True") && (name !in peers || env.metrics.Some?))
    {
      hide HandlerUp, Exact, Walk, CleanedUp, HasCondition, ApiServer.Valid;
      var cluster := Stale.Cluster(ClusterKey(name), m);
      var staleErr, stale := SweepOnce(api, cluster, env.reachable);
      var cleanupErr, cleanup := SyncCleanup(api, cluster, env.uninstalled);
      var rbacErr, rbac := PassOnce(api, Rbac.Target(name, m.labels));
      done := Account(stale, staleErr, cleanup, cleanupErr, rbac, rbacErr);
      var installErr, metricsErr := None, None;
      var ready := IsClusterReady(m);
      if ready {
        installErr := SyncvClusterInstallHandler(name, env.attempt);
        metricsErr := env.metrics;
      }
      requeue := staleErr.Some? || cleanupErr.Some? || rbacErr.Some? || installErr.Some? || metricsErr.Some?;
    }

    /** A cluster that is gone loses its handler; one that cannot be read is left alone and the error returned;
        any other goes through all the syncs, each whether or not the ones before failed. */
    method Reconcile(api: ApiServer, name: string, env: Surroundings)
      returns (err: Option<Error>, requeue: bool, got: Reply<Object>, ghost done: Account)
      requires api.Valid() && Exact(Book())
      modifies api, this
      ensures api.Valid() && Exact(Book())
      ensures api.log == old(api.log) + [Action.Get(ClusterKey(name), got)] + done.stale + done.cleanup + done.rbac
      ensures got.NotFound? ==> HandlerDown(old(Book()), Book(), name)
      ensures got.Ok? && HasCondition(got.value, "Ready", "True") && (name in old(peers) || env.attempt.Works?) ==>
        HandlerUp(old(Book()), Book(), name)
      ensures got.NotFound? ==> Book() == Dropped(old(Book()), name) && err == None && !requeue && done == NO_CALLS
      ensures got.Ok? ==> err == None && Accounts(name, got.value, old(peers.Keys), env, done)
      ensures got.Ok? ==>
        (requeue <==> done.staleErr.Some? || done.cleanupErr.Some? || done.rbacErr.Some?
                      || (HasCondition(got.value, "Ready", "True") && (name !in peers || env.metrics.Some?)))
      ensures got.Ok? ==>
        Book() == if HasCondition(got.value, "Ready", "True") then Installed(old(Book()), name, env.attempt) else old(Book())
      ensures !got.Ok? && !got.NotFound? ==> err.Some? && !requeue && Book() == old(Book()) && done == NO_CALLS
    {
      hide HandlerUp, HandlerDown;
      err, requeue, done := None, false, NO_CALLS;
      ghost var call;
      got, call := api.Get(ClusterKey(name));
      if got.NotFound? {
        StopHandler(name);
      } else if !got.Ok? {
        err := Some(ApiError);
      } else {
        requeue, done := SyncAll(api, name, got.value, env);
      }
    }
  }
}
