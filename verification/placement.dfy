/** Where a new provisioning cluster goes and what it is labelled with: for every run of a worker that comes to
    create one, whatever the servers replied on the way. */
module Placement {
  import opened Text
  import opened Api
  import opened Calls
  import opened Constants
  import opened Config
  import opened Naming
  import opened HandlerProgram
  import HandlerFacts

  predicate IsNamespaceReply(h: Host, svc: Service, a: Action, nsLabels: Labels) {
    a.Get? && a.key == NamespaceKey(h, svc) && a.got.Ok? && a.got.value.labels == nsLabels
  }

  /** The run has read the service's namespace with these labels. */
  ghost predicate SawNamespace(h: Host, svc: Service, run: seq<Action>, nsLabels: Labels) {
    exists i | 0 <= i < |run| :: IsNamespaceReply(h, svc, run[i], nsLabels)
  }

  predicate IsProjectReply(h: Host, project: string, a: Action, uid: string) {
    a.Get? && a.key == ProjectKey(h, project) && a.got.Ok? && a.got.value.uid == uid
  }

  ghost predicate SawProject(h: Host, project: string, run: seq<Action>, uid: string) {
    exists i | 0 <= i < |run| :: IsProjectReply(h, project, run[i], uid)
  }

  /** The namespace belongs to this project. */
  ghost predicate InProject(h: Host, svc: Service, run: seq<Action>, project: string) {
    exists nsLabels :: SawNamespace(h, svc, run, nsLabels) && LABEL_RANCHER_PROJECT in nsLabels
                       && nsLabels[LABEL_RANCHER_PROJECT] == project
  }

  ghost predicate InNoProject(h: Host, svc: Service, run: seq<Action>) {
    exists nsLabels :: SawNamespace(h, svc, run, nsLabels) && LABEL_RANCHER_PROJECT !in nsLabels
  }

  /** The labels say which project the service's namespace is in, with the UID the project had. */
  ghost predicate LabelsTell(h: Host, svc: Service, run: seq<Action>, labels: Labels) {
    || (InNoProject(h, svc, run) && labels == BaseLabels(h, svc)[LABEL_PROJECT_UID := NO_RANCHER_PROJECT])
    || (exists project, uid :: InProject(h, svc, run, project) && SawProject(h, project, run, uid)
          && labels == BaseLabels(h, svc)[LABEL_PROJECT_UID := uid][LABEL_PROJECT_NAME := project])
  }

  predicate IsWorkspaceReply(target: string, a: Action) {
    || (a.Get? && a.key == WorkspaceKey(target) && a.got.Ok?)
    || (a.Create? && a.key == WorkspaceKey(target) && (a.done.Ok? || a.done.AlreadyExists?))
  }

  ghost predicate SawWorkspace(run: seq<Action>, target: string) {
    exists i | 0 <= i < |run| :: IsWorkspaceReply(target, run[i])
  }

  /** What a worker on its way to creating a cluster has made sure of. */
  ghost predicate Placed(h: Host, pc: Pc, run: seq<Action>) {
    match pc
    case ClusterList(svc, nsLabels) => SawNamespace(h, svc, run, nsLabels)
    case ProjectGet(svc, project) => InProject(h, svc, run, project)
    case WorkspaceGet(svc, labels, target) => LabelsTell(h, svc, run, labels) && IsTargetOf(h, labels, target)
    case WorkspaceCreate(svc, labels, target) =>
      LabelsTell(h, svc, run, labels) && IsTargetOf(h, labels, target) && h.config.fleetAutoCreate
    case ClusterCreate(svc, labels, target, choice) =>
      LabelsTell(h, svc, run, labels) && IsTargetOf(h, labels, target) && SawWorkspace(run, target)
      && GetProvisioningClusterName(h.name, svc) == Some(choice)
    case _ => true
  }

  predicate IsTargetOf(h: Host, labels: Labels, target: string) {
    target == GetTargetClusterNamespace(h.config, Lookup(labels, LABEL_PROJECT_UID))
  }

  lemma SawMore(h: Host, svc: Service, run: seq<Action>, a: Action)
    ensures forall l | SawNamespace(h, svc, run, l) :: SawNamespace(h, svc, run + [a], l)
    ensures forall p, uid | SawProject(h, p, run, uid) :: SawProject(h, p, run + [a], uid)
    ensures forall p | InProject(h, svc, run, p) :: InProject(h, svc, run + [a], p)
    ensures InNoProject(h, svc, run) ==> InNoProject(h, svc, run + [a])
  {
    assert forall i | 0 <= i < |run| :: (run + [a])[i] == run[i];
  }

  lemma LabelsStillTell(h: Host, svc: Service, run: seq<Action>, labels: Labels, a: Action)
    requires LabelsTell(h, svc, run, labels)
    ensures LabelsTell(h, svc, run + [a], labels)
  {
    SawMore(h, svc, run, a);
    hide SawNamespace, SawProject, InProject, InNoProject, BaseLabels;
  }

  lemma SeesNow(h: Host, svc: Service, run: seq<Action>, a: Action)
    ensures forall l | IsNamespaceReply(h, svc, a, l) :: SawNamespace(h, svc, run + [a], l)
    ensures forall p, uid | IsProjectReply(h, p, a, uid) :: SawProject(h, p, run + [a], uid)
    ensures forall target | IsWorkspaceReply(target, a) :: SawWorkspace(run + [a], target)
  {
    assert (run + [a])[|run|] == a;
  }

  predicate Choosing(pc: Pc) {
    pc.ClusterList? || pc.ProjectGet? || pc.WorkspaceGet? || pc.WorkspaceCreate? || pc.ClusterCreate?
  }

  /** Nothing leads back to choosing a place. */
  lemma OthersDoNotChoose(h: Host, pc: Pc, a: Action)
    requires !pc.NamespaceGet? && (!Choosing(pc) || pc.ClusterCreate?) && Answers(Asks(h, pc), a)
    ensures !Choosing(Next(h, pc, a))
  {
    hide JobScan;
    if pc.JobList? && a.items.Ok? {
      HandlerFacts.ScanTargets(pc.svc, a.items.value);
    } else if pc.JobDelete? {
      HandlerFacts.ScanTargets(pc.svc, pc.jobs[1..]);
    }
  }

  lemma WorkspacePlaced(h: Host, pc: Pc, run: seq<Action>, a: Action)
    requires (pc.WorkspaceGet? || pc.WorkspaceCreate?) && Placed(h, pc, run) && Answers(Asks(h, pc), a)
    ensures Placed(h, Next(h, pc, a), run + [a])
  {
    hide SawWorkspace, LabelsTell, GetProvisioningClusterName, GetTargetClusterNamespace;
    LabelsStillTell(h, pc.svc, run, pc.labels, a);
    SeesNow(h, pc.svc, run, a);
  }

  lemma NamespacePlaced(h: Host, svc: Service, run: seq<Action>, a: Action)
    requires Answers(Asks(h, NamespaceGet(svc)), a)
    ensures Placed(h, Next(h, NamespaceGet(svc), a), run + [a])
  {
    hide SawNamespace;
    SeesNow(h, svc, run, a);
  }

  lemma PlacedStep(h: Host, pc: Pc, run: seq<Action>, a: Action)
    requires Placed(h, pc, run) && Answers(Asks(h, pc), a)
    ensures Placed(h, Next(h, pc, a), run + [a])
  {
    hide SawNamespace, SawProject, SawWorkspace, InProject, LabelsTell, IsTargetOf, Next, Asks, Answers;
    match pc
    case NamespaceGet(svc) => NamespacePlaced(h, svc, run, a);
    case ClusterList(svc, nsLabels) => ListedPlaced(h, svc, nsLabels, run, a);
    case ProjectGet(svc, project) => ProjectPlaced(h, svc, project, run, a);
    case WorkspaceGet(_, _, _) => WorkspacePlaced(h, pc, run, a);
    case WorkspaceCreate(_, _, _) => WorkspacePlaced(h, pc, run, a);
    case _ => OthersDoNotChoose(h, pc, a);
  }

  lemma ListedPlaced(h: Host, svc: Service, nsLabels: Labels, run: seq<Action>, a: Action)
    requires SawNamespace(h, svc, run, nsLabels) && Answers(Asks(h, ClusterList(svc, nsLabels)), a)
    ensures Placed(h, Next(h, ClusterList(svc, nsLabels), a), run + [a])
  {
    SawMore(h, svc, run, a);
    hide SawNamespace, SawProject;
    assert SawNamespace(h, svc, run + [a], nsLabels);
  }

  lemma ProjectPlaced(h: Host, svc: Service, project: string, run: seq<Action>, a: Action)
    requires InProject(h, svc, run, project) && Answers(Asks(h, ProjectGet(svc, project)), a)
    ensures Placed(h, Next(h, ProjectGet(svc, project), a), run + [a])
  {
    SawMore(h, svc, run, a);
    SeesNow(h, svc, run, a);
    hide SawNamespace, SawProject, InProject, InNoProject, BaseLabels;
    if a.got.Ok? {
      assert SawProject(h, project, run + [a], a.got.value.uid);
    }
  }

  lemma {:induction false} PlacedAlways(h: Host, item: Item, cached: Cached, run: seq<Action>)
    requires Follows(Worker(h), Start(item, cached), run)
    ensures Placed(h, Reached(Worker(h), Start(item, cached), run), run)
    decreases |run|
  {
    hide Placed, Next, Asks;
    if run == [] {
      StartsUnplaced(h, item, cached);
    } else {
      var before := run[..|run| - 1];
      PlacedAlways(h, item, cached, before);
      PlacedStep(h, Reached(Worker(h), Start(item, cached), before), before, run[|run| - 1]);
      assert run == before + [run[|run| - 1]];
    }
  }

  lemma StartsUnplaced(h: Host, item: Item, cached: Cached)
    ensures Placed(h, Start(item, cached), [])
  {
  }

  /** Every provisioning cluster a worker creates carries the service's UID, its host, and the UID and name of the
      project its namespace was read to be in (or the mark that it is in none), which is what lets role bindings
      find it later; it goes into the workspace configured for that project, under the service's own name, and only
      once that workspace was seen or made. */
  lemma CreatedClusterIsPlaced(h: Host, item: Item, cached: Cached, run: seq<Action>, a: Action)
    requires Follows(Worker(h), Start(item, cached), run + [a]) && a.Create? && a.key.kind == ProvisioningCluster
    ensures var pc := Reached(Worker(h), Start(item, cached), run);
      && pc.ClusterCreate? && LabelsTell(h, pc.svc, run, a.obj.labels)
      && a.key.namespace == GetTargetClusterNamespace(h.config, Lookup(a.obj.labels, LABEL_PROJECT_UID))
      && SawWorkspace(run, a.key.namespace)
      && GetProvisioningClusterName(h.name, pc.svc).Some?
      && NameFits(GetProvisioningClusterName(h.name, pc.svc).value, a.key.name)
  {
    hide LabelsTell, SawWorkspace, GetProvisioningClusterName, GetTargetClusterNamespace;
    assert (run + [a])[..|run|] == run;
    PlacedAlways(h, item, cached, run);
  }
}
