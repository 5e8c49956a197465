/** What every run of a service worker does, whatever the servers reply and whoever acts in between. */
module HandlerFacts {
  import opened Text
  import opened Api
  import opened Calls
  import opened Constants
  import opened Errors
  import opened Naming
  import opened HandlerProgram
  import LabelSync

  // ---- the job loop ----

  predicate HasFailed(j: Entry) {
    Count(j.obj, "failed") > 0
  }

  /** An install job that is running or has succeeded. */
  predicate Settles(j: Entry) {
    !HasFailed(j) && (Count(j.obj, "active") > 0 || Count(j.obj, "succeeded") > 0)
  }

  /** The first settling job, or the number of jobs. */
  function FirstSettling(jobs: seq<Entry>): (n: nat)
    ensures n <= |jobs| && (n < |jobs| ==> Settles(jobs[n]))
    ensures forall i | 0 <= i < n :: !Settles(jobs[i])
  {
    if jobs == [] || Settles(jobs[0]) then 0
    else
      var n := FirstSettling(jobs[1..]);
      assert forall i | 1 <= i < n + 1 :: jobs[i] == jobs[1..][i - 1];
      n + 1
  }

  function FailedKeys(jobs: seq<Entry>): seq<Key> {
    if jobs == [] then []
    else (if HasFailed(jobs[0]) then [jobs[0].key] else []) + FailedKeys(jobs[1..])
  }

  function Deletes(run: seq<Action>): seq<Key> {
    if run == [] then []
    else (if run[0].Delete? then [run[0].key] else []) + Deletes(run[1..])
  }

  predicate Creates(run: seq<Action>) {
    run != [] && (run[0].Create? || Creates(run[1..]))
  }

  predicate DeletesSucceed(run: seq<Action>) {
    run == [] || ((run[0].Delete? ==> run[0].done.Ok?) && DeletesSucceed(run[1..]))
  }

  /** The jobs the loop may delete: the failed ones before the first settling one. */
  function Doomed(jobs: seq<Entry>): seq<Key> {
    FailedKeys(jobs[..FirstSettling(jobs)])
  }

  lemma DoomedStep(jobs: seq<Entry>)
    requires jobs != []
    ensures Settles(jobs[0]) ==> Doomed(jobs) == []
    ensures FirstSettling(jobs) == if Settles(jobs[0]) then 0 else FirstSettling(jobs[1..]) + 1
    ensures !Settles(jobs[0]) ==>
      Doomed(jobs) == (if HasFailed(jobs[0]) then [jobs[0].key] else []) + Doomed(jobs[1..])
  {
    var n := FirstSettling(jobs);
    if !Settles(jobs[0]) {
      assert jobs[..n][1..] == jobs[1..][..n - 1];
    }
  }

  /** The loop deletes failed jobs only, in listed order and only up to the first settling one; when every
      call succeeds it deletes all of them, and it creates a new job exactly when no job settles. */
  lemma {:induction false} JobLoopExact(h: Host, svc: Service, jobs: seq<Entry>, run: seq<Action>, err: Option<Error>)
    requires Walk(Worker(h), JobScan(svc, jobs), run, Finished(err))
    ensures Deletes(run) <= Doomed(jobs)
    ensures Creates(run) ==> FirstSettling(jobs) == |jobs|
    ensures DeletesSucceed(run) ==> Deletes(run) == Doomed(jobs) && (Creates(run) <==> FirstSettling(jobs) == |jobs|)
    ensures DeletesSucceed(run) && FirstSettling(jobs) < |jobs| ==>
      err == if Count(jobs[FirstSettling(jobs)].obj, "active") > 0 then Some(AgentInstallJobInProgress) else None
    decreases |jobs|
  {
    hide Follows, Reached, Next, Asks, Walk;
    var pc := JobScan(svc, jobs);
    if jobs == [] {
      LoopStep(h, pc, run, err);
      CreateReply(h, svc, run[0]);
      WalkEnds(Worker(h), Next(h, pc, run[0]), run[1..], Finished(err)) by { FinishedAsksNothing(h); }
      assert !Creates(run[1..]);
    } else {
      DoomedStep(jobs);
      if HasFailed(jobs[0]) {
        LoopStep(h, pc, run, err);
        DeleteReply(h, svc, jobs, run[0]);
        if run[0].done.Ok? {
          JobLoopExact(h, svc, jobs[1..], run[1..], err);
        } else {
          WalkEnds(Worker(h), Next(h, pc, run[0]), run[1..], Finished(err)) by { FinishedAsksNothing(h); }
          assert !Creates(run[1..]);
        }
      } else if Settles(jobs[0]) {
        WalkEnds(Worker(h), pc, run, Finished(err)) by { FinishedAsksNothing(h); }
      } else {
        JobLoopExact(h, svc, jobs[1..], run, err);
      }
    }
  }

  lemma FinishedAsksNothing(h: Host)
    ensures forall e :: Worker(h).asks(Finished(e)) == AskNothing
  {
  }

  lemma DeleteReply(h: Host, svc: Service, jobs: seq<Entry>, a: Action)
    requires jobs != [] && Answers(Asks(h, JobDelete(svc, jobs)), a)
    ensures a.Delete? && a.key == jobs[0].key
    ensures Next(h, JobDelete(svc, jobs), a) == if a.done.Ok? then JobScan(svc, jobs[1..]) else Fails(Wrapped(ApiError))
  {
  }

  lemma CreateReply(h: Host, svc: Service, a: Action)
    requires Answers(Asks(h, JobCreate(svc)), a)
    ensures a.Create? && Next(h, JobCreate(svc), a).Finished?
  {
  }

  lemma LoopStep(h: Host, pc: Pc, run: seq<Action>, err: Option<Error>)
    requires !pc.Finished? && Walk(Worker(h), pc, run, Finished(err))
    ensures run != [] && Answers(Asks(h, pc), run[0])
    ensures Walk(Worker(h), Next(h, pc, run[0]), run[1..], Finished(err))
  {
    WalkFirst(Worker(h), pc, run, Finished(err));
  }

  // ---- which errors make the queue wait ----

  /** The first settling job is an active one, and no failed job is listed before it. */
  predicate ActiveFirst(jobs: seq<Entry>) {
    var n := FirstSettling(jobs);
    n < |jobs| && Count(jobs[n].obj, "active") > 0 && Doomed(jobs) == []
  }

  lemma {:induction false} ScanStopsExactly(svc: Service, jobs: seq<Entry>)
    ensures JobScan(svc, jobs) == Fails(AgentInstallJobInProgress) <==> ActiveFirst(jobs)
    ensures JobScan(svc, jobs).Finished? && JobScan(svc, jobs).err.Some? ==> ActiveFirst(jobs)
    decreases |jobs|
  {
    if jobs != [] {
      hide FirstSettling, Doomed;
      DoomedStep(jobs);
      if !HasFailed(jobs[0]) && !Settles(jobs[0]) {
        ScanStopsExactly(svc, jobs[1..]);
      }
    }
  }

  /** The reply `a` at `pc` stops the run at something that is not there yet. */
  predicate StopsToWait(pc: Pc, a: Action) {
    match pc
    case MgmtList(_, _) => a.List? && a.items == Ok([])
    case MgmtPatch(_, _, _, _) => a.Patch? && a.done.Conflict?
    case TokenGet(_, _) => a.Get? && a.got.NotFound?
    case SecretGet(_) => a.Get? && a.got.NotFound?
    case JobList(_) => a.List? && a.items.Ok? && ActiveFirst(a.items.value)
    case JobDelete(_, jobs) => a.Delete? && a.done.Ok? && jobs != [] && ActiveFirst(jobs[1..])
    case _ => false
  }

  lemma StepStopsExactly(h: Host, pc: Pc, a: Action, e: Error)
    requires Answers(Asks(h, pc), a) && Next(h, pc, a) == Fails(e)
    ensures IsWaiting(e) <==> StopsToWait(pc, a)
  {
    hide ActiveFirst, JobScan;
    if pc.JobList? && a.items.Ok? {
      ScanStopsExactly(pc.svc, a.items.value);
    }
    if pc.JobDelete? {
      ScanStopsExactly(pc.svc, pc.jobs[1..]);
    }
  }

  /** A failed reconcile is a waiting one, to the queue, if and only if its last reply said that the management
      cluster, the registration token or the secret is missing, that the patch conflicted, or that an install
      job is active; how often the error was wrapped on the way makes no difference. */
  lemma WaitingExactly(h: Host, item: Item, cached: Cached, run: seq<Action>, e: Error)
    requires Walk(Worker(h), Start(item, cached), run, Fails(e))
    ensures IsWaiting(e) <==>
      run != [] && StopsToWait(Reached(Worker(h), Start(item, cached), run[..|run| - 1]), run[|run| - 1])
  {
    if run != [] {
      StepStopsExactly(h, Reached(Worker(h), Start(item, cached), run[..|run| - 1]), run[|run| - 1], e);
    }
  }

  // ---- what a worker has seen before it installs the agent ----

  predicate IsFirstOf(a: Action, kind: Kind, uid: string) {
    a.List? && a.query == ByServiceUid(kind, uid) && a.items.Ok? && a.items.value != []
  }

  predicate IsFound(a: Action, key: Key) {
    a.Get? && a.key == key && a.got.Ok?
  }

  ghost predicate SawCluster(run: seq<Action>, uid: string) {
    exists i | 0 <= i < |run| :: IsFirstOf(run[i], ManagementCluster, uid)
  }

  ghost predicate SawReady(run: seq<Action>, uid: string) {
    exists i | 0 <= i < |run| :: IsFirstOf(run[i], ProvisioningCluster, uid) && IsReady(run[i].items.value[0].obj)
  }

  ghost predicate SawToken(run: seq<Action>, uid: string) {
    exists i, j | 0 <= i < |run| && 0 <= j < |run| ::
      IsFirstOf(run[i], ManagementCluster, uid) && IsFound(run[j], TokenKey(run[i].items.value[0].key.name))
  }

  ghost predicate SawSecret(h: Host, run: seq<Action>, svc: Service) {
    exists i | 0 <= i < |run| :: IsFound(run[i], SecretKey(h, svc))
  }

  ghost predicate SawNoAgent(h: Host, run: seq<Action>, svc: Service) {
    exists i | 0 <= i < |run| :: run[i] == Action.List(AgentPods(h, svc), Ok([]))
  }

  ghost predicate SawMgmtNamed(run: seq<Action>, uid: string, name: string) {
    exists i | 0 <= i < |run| :: IsFirstOf(run[i], ManagementCluster, uid) && run[i].items.value[0].key.name == name
  }

  ghost predicate MayInstall(h: Host, run: seq<Action>, svc: Service) {
    SawCluster(run, svc.uid) && (SawReady(run, svc.uid) || (SawToken(run, svc.uid) && SawSecret(h, run, svc)))
  }

  /** What a worker that stands at `pc` has seen on its way there. */
  ghost predicate Evidence(h: Host, pc: Pc, run: seq<Action>) {
    match pc
    case MgmtList(svc, ready) => ready ==> SawReady(run, svc.uid)
    case MgmtPatch(svc, ready, key, _) => (ready ==> SawReady(run, svc.uid)) && SawMgmtNamed(run, svc.uid, key.name)
    case TokenGet(svc, mgmt) => SawMgmtNamed(run, svc.uid, mgmt)
    case SecretGet(svc) => SawCluster(run, svc.uid) && SawToken(run, svc.uid)
    case PodList(svc) => MayInstall(h, run, svc)
    case JobList(svc) => MayInstall(h, run, svc) && SawNoAgent(h, run, svc)
    case JobDelete(svc, _) => MayInstall(h, run, svc) && SawNoAgent(h, run, svc)
    case JobCreate(svc) => MayInstall(h, run, svc) && SawNoAgent(h, run, svc)
    case _ => true
  }

  lemma SawMore(h: Host, pc: Pc, run: seq<Action>, a: Action)
    requires Evidence(h, pc, run)
    ensures Evidence(h, pc, run + [a])
  {
    var more := run + [a];
    assert forall i | 0 <= i < |run| :: more[i] == run[i];
  }

  lemma {:induction false} ScanTargets(svc: Service, jobs: seq<Entry>)
    ensures var to := JobScan(svc, jobs);
      to == JobCreate(svc) || to.Finished? || (to.JobDelete? && to.svc == svc && to.jobs != [])
    decreases |jobs|
  {
    if jobs != [] {
      ScanTargets(svc, jobs[1..]);
    }
  }

  lemma SeesList(h: Host, run: seq<Action>, a: Action, svc: Service)
    ensures IsFirstOf(a, ManagementCluster, svc.uid) ==> SawMgmtNamed(run + [a], svc.uid, a.items.value[0].key.name)
    ensures IsFirstOf(a, ProvisioningCluster, svc.uid) && IsReady(a.items.value[0].obj) ==> SawReady(run + [a], svc.uid)
    ensures a == Action.List(AgentPods(h, svc), Ok([])) ==> SawNoAgent(h, run + [a], svc)
  {
    assert (run + [a])[|run|] == a;
  }

  lemma SeesGet(h: Host, run: seq<Action>, a: Action, svc: Service, mgmt: string)
    ensures SawMgmtNamed(run, svc.uid, mgmt) ==> SawCluster(run, svc.uid)
    ensures SawMgmtNamed(run, svc.uid, mgmt) && IsFound(a, TokenKey(mgmt)) ==> SawToken(run + [a], svc.uid)
    ensures IsFound(a, SecretKey(h, svc)) ==> SawSecret(h, run + [a], svc)
  {
    var more := run + [a];
    assert more[|run|] == a;
    if SawMgmtNamed(run, svc.uid, mgmt) {
      var i :| 0 <= i < |run| && IsFirstOf(run[i], ManagementCluster, svc.uid) && run[i].items.value[0].key.name == mgmt;
      assert more[i] == run[i];
    }
  }

  lemma EvidenceStep(h: Host, pc: Pc, run: seq<Action>, a: Action)
    requires Evidence(h, pc, run) && Answers(Asks(h, pc), a)
    ensures Evidence(h, Next(h, pc, a), run + [a])
  {
    hide JobScan, SawCluster, SawReady, SawToken, SawSecret, SawNoAgent, SawMgmtNamed;
    SawMore(h, pc, run, a);
    match pc
    case ClusterList(svc, _) => SeesList(h, run, a, svc);
    case MgmtList(svc, _) => SeesList(h, run, a, svc);
    case PodList(svc) => SeesList(h, run, a, svc);
    case MgmtPatch(svc, _, key, _) => SeesGet(h, run + [a], a, svc, key.name);
    case TokenGet(svc, mgmt) =>
      SeesGet(h, run, a, svc, mgmt);
      SeesGet(h, run + [a], a, svc, mgmt);
    case SecretGet(svc) => SeesGet(h, run, a, svc, "");
    case JobList(svc) => if a.items.Ok? { ScanTargets(svc, a.items.value); }
    case JobDelete(svc, jobs) => ScanTargets(svc, jobs[1..]);
    case _ =>
  }

  lemma {:induction false} EvidenceGathered(h: Host, item: Item, cached: Cached, run: seq<Action>)
    requires Follows(Worker(h), Start(item, cached), run)
    ensures Evidence(h, Reached(Worker(h), Start(item, cached), run), run)
    decreases |run|
  {
    if run != [] {
      var before := run[..|run| - 1];
      EvidenceGathered(h, item, cached, before);
      EvidenceStep(h, Reached(Worker(h), Start(item, cached), before), before, run[|run| - 1]);
      assert run == before + [run[|run| - 1]];
    }
  }

  // ---- whose objects a worker writes ----

  predicate Marked(h: Host, svc: Service, labels: Labels) {
    Lookup(labels, LABEL_SERVICE_UID) == svc.uid && Lookup(labels, LABEL_HOST_CLUSTER) == h.name
    && LABEL_SERVICE_UID in labels
  }

  predicate KeepsLookups(change: Change) {
    forall k | k in change.oldLabels.Keys + change.newLabels.Keys && IsLookup(k) ::
      SameAt(change.oldLabels, change.newLabels, k)
  }

  /** The edit is of a cluster whose service asks for uninstallation, while its agent is not ready. */
  predicate MarksApp(svc: Service, ready: bool) {
    !ready && Lookup(svc.annotations, ANNOTATION_UNINSTALL) == "true"
  }

  function LabelAt(labels: Labels, k: string): Option<string> {
    if k in labels then Some(labels[k]) else None
  }

  /** What the service calls for under a label that the operator writes: a value, or no label. */
  function CalledFor(svc: Service, ready: bool, k: string): Option<string> {
    if k == LABEL_TARGET_APP && MarksApp(svc, ready) then Some(TargetApp(svc))
    else if Lookup(svc.labels, k) == "" then None
    else Some(svc.labels[k])
  }

  /** The patch of a management cluster that has drifted since it was read, label by label: a synced label, or the
      target-app label of a cluster so marked, that was not read as the service calls for it becomes so; every
      other label keeps what was written meanwhile. Of the rest of the object only the finalizers change, as a
      whole, and only if the edit changes them. */
  lemma DriftedPatch(h: Host, svc: Service, ready: bool, was: Object, now: Object, k: string)
    ensures
      var change := MgmtChange(h, svc, ready, was);
      var after := Patched(now, change);
      var ours := LabelSync.Synced(h.config, k) || (k == LABEL_TARGET_APP && MarksApp(svc, ready));
      && LabelAt(after.labels, k) == (if ours && LabelAt(was.labels, k) != CalledFor(svc, ready, k)
                                      then CalledFor(svc, ready, k) else LabelAt(now.labels, k))
      && after == now.(labels := after.labels, finalizers := after.finalizers)
      && after.finalizers ==
         (if change.oldFinalizers == change.newFinalizers then now.finalizers else change.newFinalizers)
  {
    EditedLabel(h, svc, ready, was, k);
    MergedLabel(now.labels, was.labels, MgmtChange(h, svc, ready, was).newLabels, k);
    ChangeStartsFrom(h, svc, ready, was);
    hide LabelSync.Synced, MgmtChange, MergedLabels, CalledFor, MarksApp, LabelAt;
  }

  lemma EditedLabel(h: Host, svc: Service, ready: bool, was: Object, k: string)
    ensures
      var ours := LabelSync.Synced(h.config, k) || (k == LABEL_TARGET_APP && MarksApp(svc, ready));
      LabelAt(MgmtChange(h, svc, ready, was).newLabels, k) ==
        if ours then CalledFor(svc, ready, k) else LabelAt(was.labels, k)
  {
    LabelSync.LookupsAreProtected(LABEL_TARGET_APP);
    hide LabelSync.Included, LabelSync.Excluded, LabelSync.BuiltInProtected, TargetApp;
  }

  /** A merge patch sets what differs between the labels read and the labels wanted, and nothing else. */
  lemma MergedLabel(now: Labels, was: Labels, want: Labels, k: string)
    ensures LabelAt(MergedLabels(now, was, want), k) ==
      if LabelAt(was, k) == LabelAt(want, k) then LabelAt(now, k) else LabelAt(want, k)
  {
  }

  predicate OwnJobs(h: Host, svc: Service, jobs: seq<Entry>) {
    forall i | 0 <= i < |jobs| ::
      jobs[i].key.cluster == h.name && jobs[i].key.kind == JobKind && jobs[i].key.namespace == svc.namespace
  }

  predicate Serves(cached: Cached, svc: Service) {
    cached == Found(svc) && !svc.deleting
  }

  /** What holds of a worker's own data wherever it stands. */
  predicate Sound(h: Host, cached: Cached, pc: Pc) {
    match pc
    case CleanupList(_) => true
    case CleanupDelete(_, key) => key.cluster == LOCAL && key.kind == ProvisioningCluster
    case NamespaceGet(svc) => Serves(cached, svc)
    case ClusterList(svc, _) => Serves(cached, svc)
    case ProjectGet(svc, _) => Serves(cached, svc)
    case WorkspaceGet(svc, labels, _) => Serves(cached, svc) && Marked(h, svc, labels)
    case WorkspaceCreate(svc, labels, _) => Serves(cached, svc) && Marked(h, svc, labels)
    case ClusterCreate(svc, labels, _, choice) =>
      Serves(cached, svc) && Marked(h, svc, labels) && GetProvisioningClusterName(h.name, svc) == Some(choice)
    case MgmtList(svc, _) => Serves(cached, svc)
    case MgmtPatch(svc, _, key, change) =>
      Serves(cached, svc) && key.cluster == LOCAL && key.kind == ManagementCluster
      && Lookup(change.oldLabels, LABEL_SERVICE_UID) == svc.uid && KeepsLookups(change)
    case TokenGet(svc, _) => Serves(cached, svc)
    case SecretGet(svc) => Serves(cached, svc)
    case PodList(svc) => Serves(cached, svc)
    case JobList(svc) => Serves(cached, svc)
    case JobDelete(svc, jobs) => Serves(cached, svc) && OwnJobs(h, svc, jobs)
    case JobCreate(svc) => Serves(cached, svc)
    case Finished(_) => true
  }

  lemma BaseLabelsMarked(h: Host, svc: Service, projectUID: string, projectName: string)
    ensures Marked(h, svc, BaseLabels(h, svc)[LABEL_PROJECT_UID := projectUID])
    ensures Marked(h, svc, BaseLabels(h, svc)[LABEL_PROJECT_UID := projectUID][LABEL_PROJECT_NAME := projectName])
  {
    LookupsDistinct();
  }

  lemma ChangeKeepsLookups(h: Host, svc: Service, ready: bool, mgmt: Object)
    ensures KeepsLookups(MgmtChange(h, svc, ready, mgmt))
  {
    var change := MgmtChange(h, svc, ready, mgmt);
    LookupsDistinct();
    forall k | k in change.oldLabels.Keys + change.newLabels.Keys && IsLookup(k)
      ensures SameAt(change.oldLabels, change.newLabels, k)
    {
      LabelSync.SyncKeepsLookups(h.config, svc.labels, mgmt.labels, k);
    }
  }

  lemma {:induction false} ScanKeepsOwnJobs(h: Host, svc: Service, jobs: seq<Entry>)
    requires OwnJobs(h, svc, jobs)
    ensures var to := JobScan(svc, jobs);
      to == JobCreate(svc) || to.Finished? || (to.JobDelete? && to.svc == svc && OwnJobs(h, svc, to.jobs))
    decreases |jobs|
  {
    if jobs != [] {
      ScanKeepsOwnJobs(h, svc, jobs[1..]);
    }
  }

  lemma SoundStart(h: Host, item: Item, cached: Cached)
    ensures Sound(h, cached, Start(item, cached))
  {
  }

  lemma SoundStep(h: Host, cached: Cached, pc: Pc, s: Store, a: Action)
    requires Sound(h, cached, pc) && Answers(Asks(h, pc), a) && Enabled(s, a)
    ensures Sound(h, cached, Next(h, pc, a))
  {
    hide Next, Asks, Sound, Enabled;
    if pc.JobList? || pc.JobDelete? {
      SoundJobStep(h, cached, pc, s, a);
    } else if pc.MgmtList? || pc.CleanupList? {
      SoundListStep(h, cached, pc, s, a);
    } else {
      SoundPlainStep(h, cached, pc, a);
    }
  }

  lemma SoundJobStep(h: Host, cached: Cached, pc: Pc, s: Store, a: Action)
    requires pc.JobList? || pc.JobDelete?
    requires Sound(h, cached, pc) && Answers(Asks(h, pc), a) && Enabled(s, a)
    ensures Sound(h, cached, Next(h, pc, a))
  {
    hide JobScan;
    if pc.JobDelete? {
      ScanKeepsOwnJobs(h, pc.svc, pc.jobs[1..]);
    } else if a.items.Ok? {
      assert OwnJobs(h, pc.svc, a.items.value);
      ScanKeepsOwnJobs(h, pc.svc, a.items.value);
    }
  }

  lemma SoundListStep(h: Host, cached: Cached, pc: Pc, s: Store, a: Action)
    requires pc.MgmtList? || pc.CleanupList?
    requires Sound(h, cached, pc) && Answers(Asks(h, pc), a) && Enabled(s, a)
    ensures Sound(h, cached, Next(h, pc, a))
  {
    hide KeepsLookups, MgmtChange;
    if a.items.Ok? && a.items.value != [] {
      var first := a.items.value[0];
      assert first.key in s && Matches(a.query, first.key, first.obj);
      if pc.MgmtList? {
        ChangeKeepsLookups(h, pc.svc, pc.ready, first.obj);
        ChangeStartsFrom(h, pc.svc, pc.ready, first.obj);
      }
    }
  }

  lemma SoundPlainStep(h: Host, cached: Cached, pc: Pc, a: Action)
    requires !pc.JobList? && !pc.JobDelete? && !pc.MgmtList? && !pc.CleanupList?
    requires Sound(h, cached, pc) && Answers(Asks(h, pc), a)
    ensures Sound(h, cached, Next(h, pc, a))
  {
    hide Marked, KeepsLookups, BaseLabels, MgmtChange, GetProvisioningClusterName;
    if pc.ClusterList? {
      BaseLabelsMarked(h, pc.svc, NO_RANCHER_PROJECT, "");
    }
    if pc.ProjectGet? && a.got.Ok? {
      BaseLabelsMarked(h, pc.svc, a.got.value.uid, pc.project);
    }
  }

  lemma ChangeStartsFrom(h: Host, svc: Service, ready: bool, mgmt: Object)
    ensures MgmtChange(h, svc, ready, mgmt).oldLabels == mgmt.labels
  {
  }

  /** `stores[i]` is the servers' state at the moment of call `i`; between the calls it may change freely. */
  ghost predicate Answered(stores: seq<Store>, run: seq<Action>) {
    |stores| == |run| && forall i | 0 <= i < |run| :: Enabled(stores[i], run[i])
  }

  lemma {:induction false} SoundReached(h: Host, item: Item, cached: Cached, run: seq<Action>, stores: seq<Store>)
    requires Follows(Worker(h), Start(item, cached), run) && Answered(stores, run)
    ensures Sound(h, cached, Reached(Worker(h), Start(item, cached), run))
    decreases |run|
  {
    hide Sound, Next, Asks;
    if run == [] {
      SoundStart(h, item, cached);
    } else {
      var n := |run| - 1;
      SoundReached(h, item, cached, run[..n], stores[..n]);
      SoundStep(h, cached, Reached(Worker(h), Start(item, cached), run[..n]), stores[n], run[n]);
    }
  }

  /** A call on behalf of the live service `svc`: it writes clusters of the service alone, workspaces that are marked
      as made by the operator, and install jobs of the service's namespace. */
  predicate OwnCall(h: Host, svc: Service, a: Action) {
    match a
    case Get(_, _) => true
    case List(_, _) => true
    case Create(key, obj, _, _) =>
      || (key.kind == FleetWorkspace && obj.labels == map[LABEL_AUTO_CREATED := "true"])
      || (key.kind == ProvisioningCluster && Marked(h, svc, obj.labels))
      || (key.kind == JobKind && key.cluster == h.name && key.namespace == svc.namespace
          && obj.labels == map[LABEL_INSTALL_JOB := "true"])
    case Delete(key, _, _) => key.kind == JobKind && key.cluster == h.name && key.namespace == svc.namespace
    case Patch(key, change, _, _) =>
      key.kind == ManagementCluster && Lookup(change.oldLabels, LABEL_SERVICE_UID) == svc.uid && KeepsLookups(change)
  }

  lemma SoundCallsAreOwn(h: Host, svc: Service, pc: Pc, a: Action)
    requires Sound(h, Found(svc), pc) && !pc.CleanupDelete? && Answers(Asks(h, pc), a)
    ensures OwnCall(h, svc, a)
  {
  }

  /** A worker that finds a live service, even one that was recreated under the key of a deleted service,
      writes no cluster but that service's own: it never deletes a provisioning cluster, never patches another
      service's management cluster, and its jobs are in the service's namespace. */
  lemma {:induction false} LiveServiceOnlyWritesItsOwn(h: Host, item: Item, svc: Service, run: seq<Action>,
          stores: seq<Store>)
    requires !svc.deleting && Follows(Worker(h), Start(item, Found(svc)), run) && Answered(stores, run)
    ensures forall i | 0 <= i < |run| :: OwnCall(h, svc, run[i])
    ensures !Reached(Worker(h), Start(item, Found(svc)), run).CleanupList?
         && !Reached(Worker(h), Start(item, Found(svc)), run).CleanupDelete?
    decreases |run|
  {
    hide Sound, OwnCall, Next, Asks, Enabled;
    if run != [] {
      var n := |run| - 1;
      var pc := Reached(Worker(h), Start(item, Found(svc)), run[..n]);
      LiveServiceOnlyWritesItsOwn(h, item, svc, run[..n], stores[..n]);
      SoundReached(h, item, Found(svc), run[..n], stores[..n]);
      SoundCallsAreOwn(h, svc, pc, run[n]);
      NoWayToCleanup(h, pc, run[n]);
      assert forall i | 0 <= i < n :: run[i] == run[..n][i];
    }
  }

  /** The service's install jobs and agent pods, as its worker looks them up. */
  predicate SeesJob(h: Host, svc: Service, k: Key, obj: Object) {
    Matches(InstallJobs(h, svc), k, obj)
  }

  predicate SeesAgent(h: Host, svc: Service, k: Key, obj: Object) {
    Matches(AgentPods(h, svc), k, obj)
  }

  /** Install jobs and agent pods carry no mark of their service: two services of one host take each other's for their
      own exactly if they are in one namespace. */
  lemma JobsSharedExactly(h: Host, a: Service, b: Service)
    ensures (exists k, obj :: SeesJob(h, a, k, obj) && SeesJob(h, b, k, obj)) <==> a.namespace == b.namespace
    ensures (exists k, obj :: SeesAgent(h, a, k, obj) && SeesAgent(h, b, k, obj)) <==> a.namespace == b.namespace
  {
    if a.namespace == b.namespace {
      var job := Object("", map[LABEL_INSTALL_JOB := "true"], [], false, map[]);
      assert SeesJob(h, a, Key(h.name, JobKind, a.namespace, ""), job);
      assert SeesJob(h, b, Key(h.name, JobKind, a.namespace, ""), job);
      var agent := Object("", map[LABEL_APP := "cattle-cluster-agent"], [], false, map[]);
      assert SeesAgent(h, a, Key(h.name, PodKind, a.namespace, ""), agent);
      assert SeesAgent(h, b, Key(h.name, PodKind, a.namespace, ""), agent);
    }
  }

  lemma AgentListed(h: Host, svc: Service, s: Store, a: Action)
    requires Answers(Asks(h, PodList(svc)), a) && Enabled(s, a) && !IsFault(a)
    requires !NoAgentAt(h, s, svc)
    ensures Apply(s, a) == s && Next(h, PodList(svc), a) == DONE && !a.Create?
  {
    var k :| k in s && Matches(AgentPods(h, svc), k, s[k]);
    assert Entry(k, s[k]) in a.items.value;
  }

  /** So a service in whose namespace an agent runs, be it another service's, gets no install job: its worker ends
      without an error, and nothing is retried. */
  lemma AgentInNamespaceEndsInstall(h: Host, svc: Service, s: Store, run: seq<Action>, err: Option<Error>)
    requires Walk(Worker(h), PodList(svc), run, Finished(err)) && Possible(s, run) && FaultFree(run)
    requires !NoAgentAt(h, s, svc)
    ensures err == None && After(s, run) == s && !Creates(run)
  {
    hide Follows, Reached, Walk, Next, Asks, Enabled, Apply, NoAgentAt, IsFault;
    LoopStep(h, PodList(svc), run, err);
    PossibleFirst(s, run);
    AgentListed(h, svc, s, run[0]);
    WalkEnds(Worker(h), DONE, run[1..], Finished(err)) by { FinishedAsksNothing(h); }
    assert !Creates(run[1..]);
  }

  lemma NoWayToCleanup(h: Host, pc: Pc, a: Action)
    requires !pc.CleanupList? && !pc.CleanupDelete?
    ensures !Next(h, pc, a).CleanupList? && !Next(h, pc, a).CleanupDelete?
  {
    hide JobScan;
    if pc.JobList? && a.List? && a.items.Ok? {
      ScanTargets(pc.svc, a.items.value);
    }
    if pc.JobDelete? && pc.jobs != [] {
      ScanTargets(pc.svc, pc.jobs[1..]);
    }
  }

  lemma CleanupListReply(h: Host, uid: string, s: Store, a: Action)
    requires Answers(Asks(h, CleanupList(uid)), a) && Enabled(s, a)
    ensures a.List?
    ensures var to := Next(h, CleanupList(uid), a);
      to.Finished? || (to.CleanupDelete? && to.uid == uid && ListedForCleanup(h, uid, s, to.key))
  {
    if a.items.Ok? && a.items.value != [] {
      var first := a.items.value[0];
      assert first.key in s && Matches(a.query, first.key, first.obj);
    }
  }

  /** The key holds a provisioning cluster with this service UID and this host's label. */
  predicate ListedForCleanup(h: Host, uid: string, s: Store, key: Key) {
    key in s && key.kind == ProvisioningCluster && key.cluster == LOCAL
    && Selects(HasValue(LABEL_SERVICE_UID, uid), s[key].labels) && HostNameOf(s[key]) == h.name
  }

  lemma CleanupDeleteReply(h: Host, uid: string, key: Key, a: Action)
    requires Answers(Asks(h, CleanupDelete(uid, key)), a)
    ensures a.Delete? && a.key == key && Next(h, CleanupDelete(uid, key), a).Finished?
  {
  }

  /** A cleanup lists once and deletes at most once, and what it deletes was listed with the UID in question
      and with this host's label. */
  lemma CleanupDeletesOnlyItsOwn(h: Host, uid: string, run: seq<Action>, stores: seq<Store>, err: Option<Error>)
    requires Walk(Worker(h), CleanupList(uid), run, Finished(err)) && Answered(stores, run)
    ensures 1 <= |run| <= 2 && run[0].List?
    ensures |run| == 2 ==> (run[1].Delete? && ListedForCleanup(h, uid, stores[0], run[1].key))
  {
    hide Follows, Reached, Walk, Next, Asks, Enabled, ListedForCleanup;
    var pc := CleanupList(uid);
    LoopStep(h, pc, run, err);
    CleanupListReply(h, uid, stores[0], run[0]);
    FinishedAsksNothing(h);
    var next := Next(h, pc, run[0]);
    if next.CleanupDelete? {
      LoopStep(h, next, run[1..], err);
      CleanupDeleteReply(h, uid, next.key, run[1]);
      WalkEnds(Worker(h), Next(h, next, run[1]), run[1..][1..], Finished(err));
    } else {
      WalkEnds(Worker(h), next, run[1..], Finished(err));
    }
  }

  // ---- install ordering ----

  ghost predicate Existed(stores: seq<Store>, kind: Kind, uid: string) {
    exists i, k | 0 <= i < |stores| && k in stores[i] ::
      k.kind == kind && ServiceUidOf(stores[i][k]) == uid
  }

  ghost predicate NoAgentAt(h: Host, s: Store, svc: Service) {
    forall k | k in s :: !Matches(AgentPods(h, svc), k, s[k])
  }

  lemma SeenExisted(run: seq<Action>, stores: seq<Store>, i: nat, kind: Kind, uid: string)
    requires Answered(stores, run) && i < |run| && IsFirstOf(run[i], kind, uid)
    ensures Existed(stores, kind, uid)
  {
    var first := run[i].items.value[0];
    assert Enabled(stores[i], run[i]);
    assert first.key in stores[i] && Matches(run[i].query, first.key, first.obj);
  }

  /** Every install job comes after its preconditions: when the create call is made, a management cluster with
      the service's UID has existed, no agent pod was there to be listed, and either the provisioning cluster
      was ready or both registration token and secret were there. */
  lemma InstallOrdering(h: Host, item: Item, cached: Cached, run: seq<Action>, stores: seq<Store>, svc: Service)
    requires Follows(Worker(h), Start(item, cached), run) && Answered(stores, run)
    requires Reached(Worker(h), Start(item, cached), run) == JobCreate(svc)
    ensures cached == Found(svc) && !svc.deleting
    ensures Existed(stores, ManagementCluster, svc.uid)
    ensures exists i | 0 <= i < |stores| :: NoAgentAt(h, stores[i], svc)
    ensures SawReady(run, svc.uid)
         || (SawToken(run, svc.uid) && exists i | 0 <= i < |stores| :: SecretKey(h, svc) in stores[i])
  {
    hide Follows, Reached, Next, Asks, SawToken, SawReady, SecretKey, AgentPods, Enabled, NoAgentAt;
    SoundReached(h, item, cached, run, stores);
    EvidenceGathered(h, item, cached, run);
    var m :| 0 <= m < |run| && IsFirstOf(run[m], ManagementCluster, svc.uid);
    SeenExisted(run, stores, m, ManagementCluster, svc.uid);
    NoAgentListed(h, run, stores, svc);
    if !SawReady(run, svc.uid) {
      var i :| 0 <= i < |run| && IsFound(run[i], SecretKey(h, svc));
      FoundIsThere(stores[i], run[i], SecretKey(h, svc));
    }
  }

  lemma FoundIsThere(s: Store, a: Action, key: Key)
    requires Enabled(s, a) && IsFound(a, key)
    ensures key in s
  {
  }

  lemma NoAgentListed(h: Host, run: seq<Action>, stores: seq<Store>, svc: Service)
    requires Answered(stores, run) && SawNoAgent(h, run, svc)
    ensures exists i | 0 <= i < |stores| :: NoAgentAt(h, stores[i], svc)
  {
    var p :| 0 <= p < |run| && run[p] == Action.List(AgentPods(h, svc), Ok([]));
    assert Enabled(stores[p], run[p]);
    assert IsListing(stores[p], AgentPods(h, svc), []);
  }

  // ---- colliding names ----

  predicate IsManagementFor(s: Store, k: Key, uid: string) {
    && k in s && k.cluster == LOCAL && k.kind == ManagementCluster
    && LABEL_SERVICE_UID in s[k].labels && s[k].labels[LABEL_SERVICE_UID] == uid
  }

  lemma TakenName(h: Host, svc: Service, labels: Labels, target: string, name: string, s: Store, a: Action)
    requires Key(LOCAL, ProvisioningCluster, target, name) in s && Enabled(s, a) && !IsFault(a)
    requires Answers(Asks(h, ClusterCreate(svc, labels, target, NameChoice(name, false))), a)
    ensures Apply(s, a) == s
      && Next(h, ClusterCreate(svc, labels, target, NameChoice(name, false)), a) == MgmtList(svc, false)
  {
  }

  lemma FirstListedIsManagement(s: Store, uid: string, listed: seq<Entry>)
    requires IsListing(s, ByServiceUid(ManagementCluster, uid), listed)
    ensures listed != [] ==> IsManagementFor(s, listed[0].key, uid)
  {
  }

  lemma NoManagementYet(h: Host, svc: Service, ready: bool, s: Store, a: Action)
    requires (forall k :: !IsManagementFor(s, k, svc.uid)) && Enabled(s, a) && !IsFault(a)
    requires Answers(Asks(h, MgmtList(svc, ready)), a)
    ensures Apply(s, a) == s && Next(h, MgmtList(svc, ready), a) == Fails(Wrapped(RancherResourcesPending))
  {
    FirstListedIsManagement(s, svc.uid, a.items.value);
  }

  /** A service whose cluster name is taken by another service's cluster is left waiting: it makes no cluster,
      adopts none and alters nothing. */
  lemma TakenNameOnlyWaits(h: Host, svc: Service, labels: Labels, target: string, name: string, s: Store,
                           run: seq<Action>, err: Option<Error>)
    requires Key(LOCAL, ProvisioningCluster, target, name) in s && forall k :: !IsManagementFor(s, k, svc.uid)
    requires Walk(Worker(h), ClusterCreate(svc, labels, target, NameChoice(name, false)), run, Finished(err))
    requires Possible(s, run) && FaultFree(run)
    ensures err.Some? && IsWaiting(err.value) && After(s, run) == s
  {
    hide Follows, Reached, Walk, Next, Asks, Enabled, Apply, IsManagementFor, IsFault;
    var pc := ClusterCreate(svc, labels, target, NameChoice(name, false));
    LoopStep(h, pc, run, err);
    PossibleFirst(s, run);
    TakenName(h, svc, labels, target, name, s, run[0]);
    var rest := run[1..];
    LoopStep(h, MgmtList(svc, false), rest, err);
    PossibleFirst(s, rest);
    assert rest[0] == run[1];
    NoManagementYet(h, svc, false, s, rest[0]);
    WalkEnds(Worker(h), Fails(Wrapped(RancherResourcesPending)), rest[1..], Finished(err)) by { FinishedAsksNothing(h); }
  }
}
