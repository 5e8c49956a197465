/** Giving the users of a vCluster's project and host cluster ownership of its Rancher cluster
    (`SyncRancherRBAC`), as a program over API calls. */
module Rbac {
  import opened Text
  import opened Json
  import opened Api
  import opened Calls
  import opened Constants
  import opened Errors

  /** The management cluster a pass works for, with the labels it was read with. */
  datatype Target = Target(name: string, labels: Labels)

  datatype Pc =
    | ProjectGet
    | PrtbList(namespace: string)
    | CrtbList(projectSources: seq<Entry>)
    | GrantGet(sources: seq<Entry>, i: nat, failed: bool)
    | GrantCreate(sources: seq<Entry>, i: nat, failed: bool)
    | ManagedList(owners: set<string>)
    | Revoke(owners: set<string>, managed: seq<Entry>, i: nat, failed: bool)
    | Finished(err: Option<Error>)

  const DONE := Finished(None)

  function Fails(e: Error): Pc {
    Finished(Some(e))
  }

  function ProjectUid(t: Target): string { Lookup(t.labels, LABEL_PROJECT_UID) }
  function ProjectName(t: Target): string { Lookup(t.labels, LABEL_PROJECT_NAME) }
  function HostName(t: Target): string { Lookup(t.labels, LABEL_HOST_CLUSTER) }
  function ServiceUid(t: Target): string { Lookup(t.labels, LABEL_SERVICE_UID) }

  function User(obj: Object): string { Str(obj.body, ["userName"]) }
  function Role(obj: Object): string { Str(obj.body, ["roleTemplateName"]) }

  function ProjectKey(t: Target): Key {
    Key(LOCAL, Project, HostName(t), ProjectName(t))
  }

  /** How bindings refer to the target's project. */
  function ProjectRef(t: Target): string {
    HostName(t) + ":" + ProjectName(t)
  }

  /** The namespace of the project's bindings. */
  function BindingNamespace(t: Target, project: Object): string {
    var backing := Str(project.body, ["status", "backingNamespace"]);
    if backing != "" then backing else ProjectName(t)
  }

  function GrantKey(t: Target, user: string): Key {
    Key(LOCAL, ClusterBinding, t.name, "vcluster-" + user + "-co")
  }

  function GrantLabels(t: Target, parent: Key): Labels {
    map[LABEL_SERVICE_UID := ServiceUid(t),
        (if parent.kind == ClusterBinding then LABEL_PARENT_CRTB else LABEL_PARENT_PRTB) := parent.name]
  }

  function GrantBody(t: Target, user: string): Fields {
    map["userName" := Literal(user), "clusterName" := Literal(t.name), "roleTemplateName" := Literal("cluster-owner")]
  }

  function HostBindings(t: Target): Query {
    Query(LOCAL, ClusterBinding, Some(HostName(t)), Lacks(LABEL_SERVICE_UID))
  }

  function ManagedBindings(t: Target): Query {
    Query(LOCAL, ClusterBinding, Some(t.name), HasValue(LABEL_SERVICE_UID, ServiceUid(t)))
  }

  function Asks(t: Target, pc: Pc): Ask {
    match pc
    case ProjectGet => AskGet(ProjectKey(t))
    case PrtbList(ns) => AskList(Query(LOCAL, ProjectBinding, if ns == "" then None else Some(ns), Anything))
    case CrtbList(_) => AskList(HostBindings(t))
    case GrantGet(sources, i, _) =>
      if i < |sources| then AskGet(GrantKey(t, User(sources[i].obj))) else AskNothing
    case GrantCreate(sources, i, _) =>
      if i < |sources| then
        var user := User(sources[i].obj);
        AskCreate(LOCAL, ClusterBinding, GrantKey(t, user).name, false, t.name,
                  GrantLabels(t, sources[i].key), GrantBody(t, user))
      else AskNothing
    case ManagedList(_) => AskList(ManagedBindings(t))
    case Revoke(_, managed, i, _) => if i < |managed| then AskDelete(managed[i].key) else AskNothing
    case Finished(_) => AskNothing
  }

  function Users(entries: seq<Entry>): set<string> {
    set e | e in entries :: User(e.obj)
  }

  /** The granting loop from source `i` on: a source without a user is an error and no call. */
  function GrantAt(sources: seq<Entry>, i: nat, failed: bool): Pc
    decreases |sources| - i
  {
    if i >= |sources| then (if failed then Fails(Wrapped(ApiError)) else ManagedList(Users(sources)))
    else if User(sources[i].obj) == "" then GrantAt(sources, i + 1, true)
    else GrantGet(sources, i, failed)
  }

  /** The revoking loop from binding `i` on: bindings of owners stay. */
  function RevokeAt(owners: set<string>, managed: seq<Entry>, i: nat, failed: bool): Pc
    decreases |managed| - i
  {
    if i >= |managed| then (if failed then Fails(ApiError) else DONE)
    else if User(managed[i].obj) == "" then RevokeAt(owners, managed, i + 1, true)
    else if User(managed[i].obj) in owners then RevokeAt(owners, managed, i + 1, failed)
    else Revoke(owners, managed, i, failed)
  }

  /** The project bindings that count: those of the project with an owner or member role. */
  function ProjectSources(t: Target, listed: seq<Entry>): seq<Entry> {
    var ofProject := Filtered(listed, ProjectRef(t), true, ["projectName"]);
    Filtered(ofProject, "project-owner", true, ["roleTemplateName"])
    + Filtered(ofProject, "project-member", true, ["roleTemplateName"])
  }

  function HostSources(listed: seq<Entry>): seq<Entry> {
    Filtered(listed, "cluster-owner", true, ["roleTemplateName"])
  }

  function Start(t: Target): Pc {
    if ProjectName(t) == "" || ProjectUid(t) == "" || HostName(t) == "" then DONE else ProjectGet
  }

  function Next(t: Target, pc: Pc, a: Action): Pc {
    if !Answers(Asks(t, pc), a) then pc else
    match pc
    case ProjectGet =>
      (match a.got
       case Ok(project) =>
         if project.uid != ProjectUid(t) then Fails(OtherError) else PrtbList(BindingNamespace(t, project))
       case _ => Fails(Wrapped(ApiError)))
    case PrtbList(_) =>
      (match a.items
       case Ok(listed) => CrtbList(ProjectSources(t, listed))
       case _ => Fails(Wrapped(ApiError)))
    case CrtbList(projectSources) =>
      (match a.items
       case Ok(listed) => GrantAt(projectSources + HostSources(listed), 0, false)
       case _ => Fails(Wrapped(ApiError)))
    case GrantGet(sources, i, failed) =>
      if a.got.NotFound? then GrantCreate(sources, i, failed) else GrantAt(sources, i + 1, failed || !a.got.Ok?)
    case GrantCreate(sources, i, failed) => GrantAt(sources, i + 1, failed || !a.done.Ok?)
    case ManagedList(owners) =>
      (match a.items
       case Ok(managed) => RevokeAt(owners, managed, 0, false)
       case _ => Fails(Wrapped(ApiError)))
    case Revoke(owners, managed, i, failed) =>
      RevokeAt(owners, managed, i + 1, failed || !(a.done.Ok? || a.done.NotFound?))
    case Finished(_) => pc
  }

  function Pass(t: Target): Program<Pc> {
    Program(pc => Asks(t, pc), (pc, a) => Next(t, pc, a))
  }

  // ---- what the bindings mean ----

  predicate ProjectIsTheOne(s: Store, t: Target) {
    ProjectKey(t) in s && s[ProjectKey(t)].uid == ProjectUid(t)
  }

  /** The binding lies where the project's status says its bindings are, or else in the namespace of the project's name. */
  predicate IsOfProject(project: Object, name: string, k: Key) {
    var backing := Str(project.body, ["status", "backingNamespace"]);
    if backing != "" then k.namespace == backing else name != "" ==> k.namespace == name
  }

  /** A project binding that makes its user an owner of the target. */
  predicate IsProjectSource(s: Store, t: Target, k: Key) {
    && ProjectKey(t) in s && k in s && k.cluster == LOCAL && k.kind == ProjectBinding
    && IsOfProject(s[ProjectKey(t)], ProjectName(t), k)
    && Str(s[k].body, ["projectName"]) == ProjectRef(t)
    && (Role(s[k]) == "project-owner" || Role(s[k]) == "project-member")
  }

  /** A binding of the host cluster, not made by the operator, that makes its user an owner of the target. */
  predicate IsHostSource(s: Store, t: Target, k: Key) {
    && k in s && k.cluster == LOCAL && k.kind == ClusterBinding && k.namespace == HostName(t)
    && LABEL_SERVICE_UID !in s[k].labels && Role(s[k]) == "cluster-owner"
  }

  predicate IsSource(s: Store, t: Target, k: Key) {
    IsProjectSource(s, t, k) || IsHostSource(s, t, k)
  }

  /** Who is to own the target's cluster. */
  ghost predicate IsOwner(s: Store, t: Target, user: string) {
    exists k :: IsSource(s, t, k) && User(s[k]) == user
  }

  /** A binding in the target's namespace with the target's service UID. */
  predicate IsManaged(s: Store, t: Target, k: Key) {
    && k in s && k.cluster == LOCAL && k.kind == ClusterBinding && k.namespace == t.name
    && LABEL_SERVICE_UID in s[k].labels && ServiceUidOf(s[k]) == ServiceUid(t)
  }

  /** The entries are exactly the project bindings that count. */
  ghost predicate ProjectSourcesAre(s: Store, t: Target, entries: seq<Entry>) {
    forall e :: e in entries <==> e.key in s && s[e.key] == e.obj && IsProjectSource(s, t, e.key)
  }

  /** The entries are exactly the bindings that make an owner. */
  ghost predicate SourcesAre(s: Store, t: Target, entries: seq<Entry>) {
    forall e :: e in entries <==> e.key in s && s[e.key] == e.obj && IsSource(s, t, e.key)
  }

  ghost predicate OwnersAre(s: Store, t: Target, owners: set<string>) {
    forall u :: u in owners <==> IsOwner(s, t, u)
  }

  lemma ListedExactly(s: Store, q: Query, items: seq<Entry>)
    requires IsListing(s, q, items)
    ensures forall e :: e in items <==> e.key in s && s[e.key] == e.obj && Matches(q, e.key, e.obj)
  {
  }

  lemma ManagedListed(s: Store, t: Target, managed: seq<Entry>)
    requires IsListing(s, ManagedBindings(t), managed)
    ensures forall e :: e in managed <==> e.key in s && s[e.key] == e.obj && IsManaged(s, t, e.key)
  {
    ListedExactly(s, ManagedBindings(t), managed);
  }

  /** The filter loops select exactly the bindings of this project with an owner or member role. */
  lemma ProjectSourcesExact(s: Store, t: Target, ns: string, listed: seq<Entry>)
    requires ProjectKey(t) in s && ns == BindingNamespace(t, s[ProjectKey(t)])
    requires IsListing(s, Query(LOCAL, ProjectBinding, if ns == "" then None else Some(ns), Anything), listed)
    ensures ProjectSourcesAre(s, t, ProjectSources(t, listed))
  {
    ListedExactly(s, Query(LOCAL, ProjectBinding, if ns == "" then None else Some(ns), Anything), listed);
    var ofProject := Filtered(listed, ProjectRef(t), true, ["projectName"]);
    FilteredExact(listed, ProjectRef(t), true, ["projectName"]);
    FilteredExact(ofProject, "project-owner", true, ["roleTemplateName"]);
    FilteredExact(ofProject, "project-member", true, ["roleTemplateName"]);
  }

  /** Together with the host cluster's unlabelled owner bindings they are all the sources. */
  lemma SourcesExact(s: Store, t: Target, projectSources: seq<Entry>, listed: seq<Entry>)
    requires ProjectSourcesAre(s, t, projectSources) && IsListing(s, HostBindings(t), listed)
    ensures SourcesAre(s, t, projectSources + HostSources(listed))
  {
    ListedExactly(s, HostBindings(t), listed);
    FilteredExact(listed, "cluster-owner", true, ["roleTemplateName"]);
  }

  lemma UsersAreOwners(s: Store, t: Target, sources: seq<Entry>)
    requires SourcesAre(s, t, sources)
    ensures OwnersAre(s, t, Users(sources))
  {
    forall u
      ensures u in Users(sources) <==> IsOwner(s, t, u)
    {
      if IsOwner(s, t, u) {
        var k :| IsSource(s, t, k) && User(s[k]) == u;
        assert Entry(k, s[k]) in sources;
      }
      if u in Users(sources) {
        var e :| e in sources && User(e.obj) == u;
        assert IsSource(s, t, e.key);
      }
    }
  }

  lemma GrantKeysDiffer(t: Target, u: string, v: string)
    ensures GrantKey(t, u) == GrantKey(t, v) ==> u == v
  {
    var a, b := "vcluster-" + u + "-co", "vcluster-" + v + "-co";
    if a == b {
      assert u == a[9..|a| - 3] == b[9..|b| - 3] == v;
    }
  }

  /** The names `vcluster-<user>-co` in the target's namespace are the operator's: they are managed bindings of
      that user, and managed bindings have such names. */
  ghost predicate WellNamed(s: Store, t: Target) {
    && (forall k | IsManaged(s, t, k) :: k == GrantKey(t, User(s[k])))
    && (forall u | GrantKey(t, u) in s :: IsManaged(s, t, GrantKey(t, u)))
  }

  /** A managed binding of a user who is no owner and that is not being deleted yet. */
  ghost predicate Surplus(s: Store, t: Target, k: Key) {
    IsManaged(s, t, k) && !s[k].deleting && !IsOwner(s, t, User(s[k]))
  }

  ghost predicate Missing(s: Store, t: Target, user: string) {
    IsOwner(s, t, user) && GrantKey(t, user) !in s
  }

  /** Every owner has a grant, and nobody else has one that is not being deleted. */
  ghost predicate Converged(s: Store, t: Target) {
    (forall u :: !Missing(s, t, u)) && (forall k :: !Surplus(s, t, k))
  }

  // ---- what the passes leave alone ----

  /** Projects, project bindings and cluster bindings the operator did not make: all that sources are taken from. */
  predicate IsBase(s: Store, k: Key) {
    && k in s
    && (k.kind == Project || k.kind == ProjectBinding || (k.kind == ClusterBinding && LABEL_SERVICE_UID !in s[k].labels))
  }

  ghost predicate SameBase(s: Store, s': Store) {
    forall k :: (IsBase(s, k) <==> IsBase(s', k)) && (IsBase(s, k) ==> s[k] == s'[k])
  }

  predicate InNamespace(name: string, k: Key) {
    k.cluster == LOCAL && k.kind == ClusterBinding && k.namespace == name
  }

  predicate SameKey(s: Store, s': Store, k: Key) {
    (k in s <==> k in s') && (k in s ==> s[k] == s'[k])
  }

  ghost predicate OnlyWithin(s: Store, s': Store, name: string) {
    forall k | !InNamespace(name, k) :: SameKey(s, s', k)
  }

  /** Derived grants never sustain other grants: as long as the base is the same, so are the sources and owners
      of every target. */
  lemma SameBaseSameSources(s: Store, s': Store, t: Target, k: Key)
    requires SameBase(s, s')
    ensures IsSource(s, t, k) <==> IsSource(s', t, k)
    ensures IsProjectSource(s, t, k) <==> IsProjectSource(s', t, k)
    ensures IsSource(s, t, k) ==> s[k] == s'[k]
    ensures SameKey(s, s', ProjectKey(t))
  {
    assert IsBase(s, k) <==> IsBase(s', k);
    assert IsBase(s, ProjectKey(t)) <==> IsBase(s', ProjectKey(t));
  }

  lemma SameBaseSameOwners(s: Store, s': Store, t: Target, u: string)
    requires SameBase(s, s')
    ensures IsOwner(s, t, u) <==> IsOwner(s', t, u)
  {
    hide SameBase;
    if IsOwner(s, t, u) {
      var k :| IsSource(s, t, k) && User(s[k]) == u;
      SameBaseSameSources(s, s', t, k);
    }
    if IsOwner(s', t, u) {
      var k :| IsSource(s', t, k) && User(s'[k]) == u;
      SameBaseSameSources(s, s', t, k);
    }
  }

  // ---- what a pass knows ----

  /** What the pass has listed for revocation is, where it still exists, a managed binding of the same user. */
  ghost predicate StillManaged(s: Store, t: Target, managed: seq<Entry>) {
    forall e | e in managed :: InNamespace(t.name, e.key)
      && (e.key in s ==> IsManaged(s, t, e.key) && User(s[e.key]) == User(e.obj))
  }

  ghost predicate Granted(s: Store, t: Target, sources: seq<Entry>, n: nat) {
    forall i | 0 <= i < n && i < |sources| :: User(sources[i].obj) != "" && GrantKey(t, User(sources[i].obj)) in s
  }

  ghost predicate AllGranted(s: Store, t: Target) {
    forall u :: !Missing(s, t, u)
  }

  ghost predicate SourcesHaveUsers(s: Store, t: Target) {
    forall k | IsSource(s, t, k) :: User(s[k]) != ""
  }

  ghost predicate SurplusAhead(s: Store, t: Target, managed: seq<Entry>, i: nat) {
    forall k | Surplus(s, t, k) :: exists n | i <= n < |managed| :: managed[n].key == k
  }

  /** What a pass that stands at `pc` knows about the store, whatever other passes did since it listed. */
  ghost predicate Knows(s: Store, t: Target, pc: Pc) {
    match pc
    case ProjectGet => true
    case PrtbList(ns) => ProjectIsTheOne(s, t) && ns == BindingNamespace(t, s[ProjectKey(t)])
    case CrtbList(ps) => ProjectIsTheOne(s, t) && ProjectSourcesAre(s, t, ps)
    case GrantGet(sources, i, failed) =>
      i < |sources| && SourcesAre(s, t, sources) && User(sources[i].obj) != ""
      && (!failed ==> Granted(s, t, sources, i))
    case GrantCreate(sources, i, failed) =>
      i < |sources| && SourcesAre(s, t, sources) && User(sources[i].obj) != ""
      && (!failed ==> Granted(s, t, sources, i))
    case ManagedList(owners) => OwnersAre(s, t, owners) && AllGranted(s, t) && SourcesHaveUsers(s, t)
    case Revoke(owners, managed, i, failed) =>
      i < |managed| && OwnersAre(s, t, owners) && AllGranted(s, t) && SourcesHaveUsers(s, t) && StillManaged(s, t, managed)
      && User(managed[i].obj) !in owners
      && (!failed ==> SurplusAhead(s, t, managed, i))
    case Finished(_) => true
  }
}
