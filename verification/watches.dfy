/** Which clusters are reconciled when a role binding changes: the mapping functions of the controller's watches,
    and that they reach every cluster whose owners depend on the binding. */
module Watches {
  import opened Text
  import opened Json
  import opened Api
  import opened Constants
  import opened Rbac

  function ProjectOf(binding: Object): Option<(string, string)> {
    ParseHalves(Str(binding.body, ["projectName"]), ':')
  }

  function WithLabel(name: string, value: string): Query {
    Query(LOCAL, ManagementCluster, None, HasValue(name, value))
  }

  /** The requests: the names of the listed clusters. */
  function Names(clusters: seq<Entry>): seq<string> {
    seq(|clusters|, i requires 0 <= i < |clusters| => clusters[i].key.name)
  }

  /** `requests := make([]Request, n)`, filled by index. */
  method RequestsFor(clusters: seq<Entry>) returns (requests: seq<string>)
    ensures requests == Names(clusters)
  {
    var slots := new string[|clusters|];
    for i := 0 to |clusters|
      invariant forall j | 0 <= j < i :: slots[j] == clusters[j].key.name
    {
      slots[i] := clusters[i].key.name;
    }
    requests := slots[..];
  }

  method ClustersRelatedToTargetProject(api: ApiServer, prtb: Object)
    returns (requests: seq<string>, ghost run: seq<Action>)
    requires api.Valid()
    modifies api`log
    ensures api.Valid() && api.log == old(api.log) + run && Possible(api.objects, run)
    ensures RelatesTo(prtb, requests, run)
  {
    requests, run := [], [];
    ghost var s := api.objects;
    var halves := ProjectOf(prtb);
    if halves.None? {
      return;
    }
    var (clusterID, projectID) := halves.value;
    var project, get := api.Get(Key(LOCAL, Project, clusterID, projectID));
    AfterOne(s, [], get);
    run := [get];
    assert [] + [get] == run;
    if !project.Ok? {
      return;
    }
    var clusters, list := api.List(WithLabel(LABEL_PROJECT_UID, project.value.uid));
    AfterOne(s, [get], list);
    run := [get, list];
    assert [get] + [list] == run;
    if !clusters.Ok? {
      return;
    }
    requests := RequestsFor(clusters.value);
  }

  method ClustersHostedByClusterTarget(api: ApiServer, crtb: Object)
    returns (requests: seq<string>, ghost run: seq<Action>)
    requires api.Valid()
    modifies api`log
    ensures api.Valid() && api.log == old(api.log) + run && Possible(api.objects, run)
    ensures HostsFor(crtb, requests, run)
  {
    requests := [];
    var clusters, list := api.List(WithLabel(LABEL_HOST_CLUSTER, Str(crtb.body, ["clusterName"])));
    AfterOne(api.objects, [], list);
    run := [list];
    assert [] + [list] == run;
    if !clusters.Ok? {
      return;
    }
    requests := RequestsFor(clusters.value);
  }

  /** The calls of the project mapping, and what it makes of their replies. */
  predicate RelatesTo(prtb: Object, requests: seq<string>, run: seq<Action>) {
    match ProjectOf(prtb)
    case None => run == [] && requests == []
    case Some((clusterID, projectID)) =>
      && 1 <= |run| <= 2 && run[0].Get? && run[0].key == Key(LOCAL, Project, clusterID, projectID)
      && (|run| == 2 <==> run[0].got.Ok?)
      && (|run| == 1 ==> requests == [])
      && (|run| == 2 ==>
            run[1].List? && run[1].query == WithLabel(LABEL_PROJECT_UID, run[0].got.value.uid)
            && requests == if run[1].items.Ok? then Names(run[1].items.value) else [])
  }

  predicate HostsFor(crtb: Object, requests: seq<string>, run: seq<Action>) {
    |run| == 1 && run[0].List? && run[0].query == WithLabel(LABEL_HOST_CLUSTER, Str(crtb.body, ["clusterName"]))
    && requests == if run[0].items.Ok? then Names(run[0].items.value) else []
  }

  // ---- coverage ----

  function TargetKey(t: Target): Key {
    Key(LOCAL, ManagementCluster, "", t.name)
  }

  /** The management cluster in `s` is what a pass for `t` works for. */
  predicate IsTarget(s: Store, t: Target) {
    TargetKey(t) in s && s[TargetKey(t)].labels == t.labels
  }

  /** Management clusters are not in a namespace. */
  predicate ClusterScoped(s: Store) {
    forall k | k in s && k.cluster == LOCAL && k.kind == ManagementCluster :: k.namespace == ""
  }

  lemma ListedNames(s: Store, q: Query, clusters: seq<Entry>, k: Key)
    requires IsListing(s, q, clusters) && k in s && Matches(q, k, s[k])
    ensures k.name in Names(clusters)
  {
    var i :| 0 <= i < |clusters| && clusters[i] == Entry(k, s[k]);
    assert Names(clusters)[i] == k.name;
  }

  /** A fault-free run of the project mapping has both calls, and both were answered in the same state. */
  lemma RelatedRun(s: Store, prtb: Object, requests: seq<string>, run: seq<Action>)
    requires RelatesTo(prtb, requests, run) && Possible(s, run)
    ensures |run| >= 1 ==> Enabled(s, run[0])
    ensures |run| == 2 ==> Enabled(s, run[1])
  {
    if |run| >= 1 {
      PossibleFirst(s, run);
      if |run| == 2 {
        PossibleFirst(Apply(s, run[0]), run[1..]);
      }
    }
  }

  /** The mapping for project bindings reaches every cluster that counts the binding as an owner source, if and
      only if neither the host cluster's nor the project's name contains the colon that separates them in the
      binding's project reference. */
  lemma ProjectWatchCovers(s: Store, t: Target, k: Key, requests: seq<string>, run: seq<Action>)
    requires IsTarget(s, t) && Start(t) == ProjectGet && ProjectIsTheOne(s, t) && IsProjectSource(s, t, k)
    requires RelatesTo(s[k], requests, run) && Possible(s, run) && FaultFree(run)
    ensures t.name in requests <==> ':' !in HostName(t) && ':' !in ProjectName(t)
  {
    hide Possible, IsListing, BindingNamespace;
    assert ProjectRef(t) == HostName(t) + [':'] + ProjectName(t);
    PrintedPairParses(HostName(t), ProjectName(t), ':');
    RelatedRun(s, s[k], requests, run);
    if ':' !in HostName(t) && ':' !in ProjectName(t) {
      assert run[0].key == ProjectKey(t);
      assert !IsFault(run[0]);
      assert !IsFault(run[1]);
      ListedNames(s, run[1].query, run[1].items.value, TargetKey(t));
    }
  }

  /** The mapping for cluster bindings reaches every cluster that counts the binding as an owner source, if and
      only if the binding names the cluster whose namespace it is in. */
  lemma HostWatchCovers(s: Store, t: Target, k: Key, requests: seq<string>, run: seq<Action>)
    requires IsTarget(s, t) && Start(t) == ProjectGet && IsHostSource(s, t, k)
    requires ClusterScoped(s)
    requires HostsFor(s[k], requests, run) && Possible(s, run) && FaultFree(run)
    ensures t.name in requests <==> Str(s[k].body, ["clusterName"]) == k.namespace
  {
    hide Possible, IsListing;
    PossibleFirst(s, run);
    assert !IsFault(run[0]);
    if Str(s[k].body, ["clusterName"]) == k.namespace {
      ListedNames(s, run[0].query, run[0].items.value, TargetKey(t));
    }
    if t.name in requests {
      ListedIsThere(s, run[0].query, run[0].items.value, t.name);
    }
  }

  lemma ListedIsThere(s: Store, q: Query, clusters: seq<Entry>, name: string)
    requires IsListing(s, q, clusters) && name in Names(clusters)
    ensures exists k :: k in s && Matches(q, k, s[k]) && k.name == name
  {
    var i :| 0 <= i < |clusters| && Names(clusters)[i] == name;
    assert clusters[i].key in s;
  }
}
