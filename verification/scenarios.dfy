/** What the exact conditions of `DeploymentRuns` and `Doubles` come to for names as services have them: recreated
    services, default names that collide, generated names, and namespaces that move. */
module Scenarios {
  import opened Text
  import opened Api
  import opened Constants
  import opened Naming
  import opened Deployment
  import opened DeploymentRuns
  import opened Doubles

  /** The service has its default name: no annotation names it, and the name is not too long. */
  predicate HasDefaultName(p: Posted) {
    && Lookup(p.svc.annotations, ANNOTATION_CUSTOM_NAME) == ""
    && Lookup(p.svc.annotations, ANNOTATION_CUSTOM_PREFIX) == ""
    && |DefaultName(p.at.host, p.svc.namespace, p.svc.name)| <= 63
  }

  /** The version may be there and is imported. */
  ghost predicate Deployable(st: Setting, p: Posted) {
    There(st, p) && Importable(p.svc)
  }

  /** The service's namespace may be sent to this workspace. */
  ghost predicate SentTo(st: Setting, p: Posted, target: string) {
    MayWork(st, p.at.host, p.svc.namespace, target)
  }

  /** The one cluster a service with its default name can be given in a workspace. */
  function DefaultKey(p: Posted, target: string): Key {
    Key(LOCAL, ProvisioningCluster, target, DefaultName(p.at.host, p.svc.namespace, p.svc.name))
  }

  lemma DefaultIsOnly(st: Setting, p: Posted, key: Key)
    requires Deployable(st, p) && HasDefaultName(p)
    ensures Given(st, p, key) <==> SentTo(st, p, key.namespace) && key == DefaultKey(p, key.namespace)
  {
    hide MayWork, Importable, DefaultName;
  }

  /** The two services may be given one cluster. */
  ghost predicate ShareName(st: Setting, p: Posted, q: Posted) {
    exists key :: Given(st, p, key) && Given(st, q, key)
  }

  /** The two services' namespaces may be sent to one workspace, if only at different times. */
  ghost predicate ShareWorkspace(st: Setting, p: Posted, q: Posted) {
    exists target :: SentTo(st, p, target) && SentTo(st, q, target)
  }

  /** The services have the same namespace and name, or ones that overlap at a hyphen, as `a/b-c` and `a-b/c` do. */
  predicate NamesMeet(a: Service, b: Service) {
    || (a.namespace == b.namespace && a.name == b.name)
    || Overlaps(a.namespace, a.name, b.namespace, b.name)
    || Overlaps(b.namespace, b.name, a.namespace, a.name)
  }

  /** Two services of one host with their default names may be given one cluster if and only if their namespaces may be
      sent to one workspace and their names meet. */
  lemma DefaultNamesShareExactly(st: Setting, p: Posted, q: Posted)
    requires Deployable(st, p) && Deployable(st, q) && HasDefaultName(p) && HasDefaultName(q) && p.at.host == q.at.host
    ensures ShareName(st, p, q) <==> ShareWorkspace(st, p, q) && NamesMeet(p.svc, q.svc)
  {
    DefaultNamesCollideExactly(p.at.host, p.svc.namespace, p.svc.name, q.svc.namespace, q.svc.name);
    hide SentTo, Given, Deployable, HasDefaultName, DefaultName, Overlaps;
    forall key
      ensures Given(st, p, key) <==> SentTo(st, p, key.namespace) && key == DefaultKey(p, key.namespace)
      ensures Given(st, q, key) <==> SentTo(st, q, key.namespace) && key == DefaultKey(q, key.namespace)
    {
      DefaultIsOnly(st, p, key);
      DefaultIsOnly(st, q, key);
    }
    assert forall target | SentTo(st, p, target) :: Given(st, p, DefaultKey(p, target));
  }

  /** So wherever a service may be recreated, or has a neighbour whose name overlaps with its own, there is a run in
      which one's cleanup deletes the other's cluster while that service is there. */
  lemma SharersAreAtRisk(st: Setting, p: Posted, q: Posted)
    requires ShareName(st, p, q) && p.svc.uid != q.svc.uid
    ensures CanHitLive(st)
  {
    hide Given, CanHitLive;
    var key :| Given(st, p, key) && Given(st, q, key);
    assert MayGet(st, p.svc.uid, key) && MayGet(st, q.svc.uid, key);
    HitsLiveExactly(st);
  }

  // ---- two clusters ----

  lemma GeneratedIsTwo(st: Setting, p: Posted, target: string)
    requires Deployable(st, p) && SentTo(st, p, target) && GetProvisioningClusterName(p.at.host, p.svc).Some?
    requires GetProvisioningClusterName(p.at.host, p.svc).value.generate
    ensures HasTwoNames(st, p.at, p.svc.uid)
  {
    var base := Truncated(GetProvisioningClusterName(p.at.host, p.svc).value.base);
    var a := Key(LOCAL, ProvisioningCluster, target, base + "aaaaa");
    var b := Key(LOCAL, ProvisioningCluster, target, base + "bbbbb");
    assert a.name[|base|] != b.name[|base|];
    hide MayWork, GetProvisioningClusterName, Importable, Truncated;
    assert NamesDiffer(st, p.at, p.svc.uid, p, p, a, b);
  }

  /** A service with a generated name that may be recreated under its key can come to have two clusters. */
  lemma GeneratedNamesDouble(st: Setting, p: Posted, target: string, uid': string)
    requires Deployable(st, p) && SentTo(st, p, target) && GetProvisioningClusterName(p.at.host, p.svc).Some?
    requires GetProvisioningClusterName(p.at.host, p.svc).value.generate
    requires uid' != p.svc.uid && Creatable(st, p.at, uid')
    ensures CanDouble(st)
  {
    GeneratedIsTwo(st, p, target);
    hide SentTo, GetProvisioningClusterName, Importable, CanDouble, Creatable, HasTwoNames, Deployable;
    assert HasRival(st, p.at, p.svc.uid);
    TwoClustersExactly(st);
  }

  /** The service's namespace may be sent to two workspaces, at different times. */
  ghost predicate TwoWorkspaces(st: Setting, p: Posted) {
    exists a, b :: SentTo(st, p, a) && SentTo(st, p, b) && a != b
  }

  /** All versions of the service have its namespace, its name and its default name for the cluster. */
  ghost predicate AlwaysDefault(st: Setting, p: Posted) {
    forall q: Posted | Deployable(st, q) && q.at == p.at && q.svc.uid == p.svc.uid ::
      HasDefaultName(q) && q.svc.namespace == p.svc.namespace && q.svc.name == p.svc.name
  }

  /** A service that always has its default name has two names to have if and only if its namespace may be moved to
      a project with another workspace. */
  lemma DefaultNameMovesExactly(st: Setting, p: Posted)
    requires Deployable(st, p) && AlwaysDefault(st, p)
    ensures HasTwoNames(st, p.at, p.svc.uid) <==> TwoWorkspaces(st, p)
  {
    assert HasDefaultName(p);
    hide HasDefaultName, DefaultName, Importable, There, Fits, MayWork;
    if p', q, key, key' :| NamesDiffer(st, p.at, p.svc.uid, p', q, key, key') {
      assert Deployable(st, p') && Deployable(st, q);
      DefaultIsOnly(st, p', key);
      DefaultIsOnly(st, q, key');
      assert SentTo(st, p, key.namespace) && SentTo(st, p, key'.namespace);
    }
    if a, b :| SentTo(st, p, a) && SentTo(st, p, b) && a != b {
      DefaultIsOnly(st, p, DefaultKey(p, a));
      DefaultIsOnly(st, p, DefaultKey(p, b));
      assert NamesDiffer(st, p.at, p.svc.uid, p, p, DefaultKey(p, a), DefaultKey(p, b));
    }
  }

  /** So such a service, recreated while its namespace moves, can come to have two clusters. */
  lemma MovedNamespaceDoubles(st: Setting, p: Posted, uid': string)
    requires Deployable(st, p) && AlwaysDefault(st, p) && TwoWorkspaces(st, p)
    requires uid' != p.svc.uid && Creatable(st, p.at, uid')
    ensures CanDouble(st)
  {
    DefaultNameMovesExactly(st, p);
    hide AlwaysDefault, TwoWorkspaces, CanDouble, Creatable, HasTwoNames, Deployable;
    assert HasRival(st, p.at, p.svc.uid);
    TwoClustersExactly(st);
  }
}
