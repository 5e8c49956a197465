/** Every run of a service worker in which no call fails and nobody acts in between comes to what `Outcomes` says. */
module Reconciles {
  import opened Text
  import opened Api
  import opened Calls
  import opened Constants
  import opened Config
  import opened Errors
  import opened Naming
  import opened HandlerProgram
  import opened HandlerFacts
  import opened Outcomes
  import LabelSync

  /** The worker goes from `pc` to its end, from the store `s` to `s'`, and no call of it fails. */
  ghost predicate Goes(h: Host, pc: Pc, s: Store, run: seq<Action>, err: Option<Error>, s': Store) {
    Walk(Worker(h), pc, run, Finished(err)) && Possible(s, run) && FaultFree(run) && After(s, run) == s'
  }

  lemma GoesOn(h: Host, pc: Pc, s: Store, run: seq<Action>, err: Option<Error>, s': Store)
    requires Goes(h, pc, s, run, err, s') && !pc.Finished?
    ensures run != [] && Answers(Asks(h, pc), run[0]) && Enabled(s, run[0]) && !IsFault(run[0])
    ensures Goes(h, Next(h, pc, run[0]), Apply(s, run[0]), run[1..], err, s')
  {
    hide Follows, Reached, Walk, Next, Asks, Enabled, Apply, IsFault;
    LoopStep(h, pc, run, err);
    PossibleFirst(s, run);
  }

  lemma GoesNoFurther(h: Host, e: Option<Error>, s: Store, run: seq<Action>, err: Option<Error>, s': Store)
    requires Goes(h, Finished(e), s, run, err, s')
    ensures err == e && s' == s
  {
    hide Follows, Reached, Next, Asks, Enabled, Apply;
    WalkEnds(Worker(h), Finished(e), run, Finished(err)) by { FinishedAsksNothing(h); }
  }

  lemma PlainErrors()
    ensures !IsWaiting(ApiError) && !IsWaiting(Wrapped(ApiError)) && !IsWaiting(Wrapped(Wrapped(ApiError)))
    ensures !IsWaiting(OtherError) && !IsWaiting(Wrapped(OtherError))
    ensures IsWaiting(AgentInstallJobInProgress) && IsWaiting(Wrapped(RancherResourcesPending))
  {
    WaitingByRoot(Wrapped(Wrapped(ApiError)));
    WaitingByRoot(Wrapped(RancherResourcesPending));
  }

  // ---- the agent ----

  lemma JobReply(h: Host, svc: Service, jobs: seq<Entry>, s: Store, a: Action)
    requires jobs != [] && jobs[0].key in s
    requires Answers(Asks(h, JobDelete(svc, jobs)), a) && Enabled(s, a) && !IsFault(a)
    ensures Next(h, JobDelete(svc, jobs), a) == JobScan(svc, jobs[1..])
    ensures AskedToGo(s, Apply(s, a), jobs[0].key) && forall k | k != jobs[0].key :: Unchanged(s, Apply(s, a), k)
  {
    hide JobScan;
  }

  lemma NewJobReply(h: Host, svc: Service, s: Store, a: Action)
    requires Answers(Asks(h, JobCreate(svc)), a) && Enabled(s, a) && !IsFault(a)
    ensures Next(h, JobCreate(svc), a).Finished?
    ensures JobMade(h.name, svc.namespace, s, Apply(s, a), Next(h, JobCreate(svc), a).err)
  {
    assert |"rancher-agent-install-"| == 22;
    assert IsJobKey(a.key, h.name, svc.namespace);
    PlainErrors();
    assert a.done.Ok? ==> IsNew(a.obj, map[LABEL_INSTALL_JOB := "true"]) && Apply(s, a) == s[a.key := a.obj];
    assert !a.done.Ok? ==> Apply(s, a) == s && a.key in s;
  }

  /** The entries are in the store, each once. */
  ghost predicate AreThere(s: Store, jobs: seq<Entry>) {
    && (forall i | 0 <= i < |jobs| :: jobs[i].key in s && s[jobs[i].key] == jobs[i].obj)
    && (forall i, j | 0 <= i < j < |jobs| :: jobs[i].key != jobs[j].key)
  }

  predicate FailedIn(jobs: seq<Entry>, k: Key) {
    exists i | 0 <= i < |jobs| :: jobs[i].key == k && HasFailed(jobs[i])
  }

  /** The loop over the jobs has asked the failed ones of the first `n` to go. */
  ghost predicate Looped(s: Store, s': Store, jobs: seq<Entry>) {
    forall k :: if k in s && FailedIn(jobs, k) then AskedToGo(s, s', k) else Unchanged(s, s', k)
  }

  lemma LoopedOne(s: Store, mid: Store, s': Store, jobs: seq<Entry>, n: nat)
    requires 0 < n <= |jobs| && AreThere(s, jobs) && Looped(mid, s', jobs[1..n])
    requires if HasFailed(jobs[0])
             then AskedToGo(s, mid, jobs[0].key) && forall k | k != jobs[0].key :: Unchanged(s, mid, k)
             else mid == s
    ensures Looped(s, s', jobs[..n])
  {
    forall k
      ensures if k in s && FailedIn(jobs[..n], k) then AskedToGo(s, s', k) else Unchanged(s, s', k)
    {
      FailedInOne(jobs, n, k);
      assert if k in mid && FailedIn(jobs[1..n], k) then AskedToGo(mid, s', k) else Unchanged(mid, s', k);
      if k == jobs[0].key {
        assert forall i | 0 <= i < n - 1 :: jobs[1..n][i] == jobs[i + 1] && jobs[i + 1].key != k;
        assert !FailedIn(jobs[1..n], k);
      } else {
        assert Unchanged(s, mid, k);
      }
    }
  }

  lemma FailedInOne(jobs: seq<Entry>, n: nat, k: Key)
    requires 0 < n <= |jobs|
    ensures FailedIn(jobs[..n], k) <==> (k == jobs[0].key && HasFailed(jobs[0])) || FailedIn(jobs[1..n], k)
  {
    if FailedIn(jobs[..n], k) {
      var i :| 0 <= i < n && jobs[..n][i].key == k && HasFailed(jobs[..n][i]);
      if i > 0 {
        assert jobs[1..n][i - 1] == jobs[i];
      }
    }
    if FailedIn(jobs[1..n], k) {
      var i :| 0 <= i < n - 1 && jobs[1..n][i].key == k && HasFailed(jobs[1..n][i]);
      assert jobs[..n][i + 1] == jobs[1..n][i];
    }
    if k == jobs[0].key && HasFailed(jobs[0]) {
      assert jobs[..n][0] == jobs[0];
    }
  }

  lemma {:induction false} JobLoopGoes(h: Host, svc: Service, jobs: seq<Entry>, s: Store, run: seq<Action>,
                                       err: Option<Error>, s': Store)
    requires Goes(h, JobScan(svc, jobs), s, run, err, s') && AreThere(s, jobs)
    ensures var n := FirstSettling(jobs);
      if n < |jobs| then
        && Looped(s, s', jobs[..n])
        && err == (if Count(jobs[n].obj, "active") > 0 then Some(AgentInstallJobInProgress) else None)
      else exists mid :: Looped(s, mid, jobs) && JobMade(h.name, svc.namespace, mid, s', err)
    decreases |jobs|
  {
    hide Goes, Next, Asks, Answers, Enabled, Apply, IsFault, AskedToGo, JobMade;
    if jobs == [] {
      GoesOn(h, JobCreate(svc), s, run, err, s');
      NewJobReply(h, svc, s, run[0]);
      GoesNoFurther(h, Next(h, JobCreate(svc), run[0]).err, Apply(s, run[0]), run[1..], err, s');
      assert Looped(s, s, jobs);
    } else {
      DoomedStep(jobs);
      assert jobs[..0] == [];
      if HasFailed(jobs[0]) {
        GoesOn(h, JobDelete(svc, jobs), s, run, err, s');
        JobReply(h, svc, jobs, s, run[0]);
        RestIsThere(s, Apply(s, run[0]), jobs);
        JobLoopGoes(h, svc, jobs[1..], Apply(s, run[0]), run[1..], err, s');
        LoopedOnwards(s, Apply(s, run[0]), jobs);
      } else if Settles(jobs[0]) {
        GoesNoFurther(h, JobScan(svc, jobs).err, s, run, err, s');
        assert Looped(s, s, []);
      } else {
        RestIsThere(s, s, jobs);
        JobLoopGoes(h, svc, jobs[1..], s, run, err, s');
        LoopedOnwards(s, s, jobs);
      }
    }
  }

  lemma RestIsThere(s: Store, mid: Store, jobs: seq<Entry>)
    requires jobs != [] && AreThere(s, jobs) && forall k | k != jobs[0].key :: Unchanged(s, mid, k)
    ensures AreThere(mid, jobs[1..])
  {
    assert forall i | 0 <= i < |jobs| - 1 :: jobs[1..][i] == jobs[i + 1] && jobs[i + 1].key != jobs[0].key;
    assert forall k | k in s && k != jobs[0].key :: Unchanged(s, mid, k);
  }

  lemma LoopedOnwards(s: Store, mid: Store, jobs: seq<Entry>)
    requires jobs != [] && !Settles(jobs[0]) && AreThere(s, jobs)
    requires if HasFailed(jobs[0])
             then AskedToGo(s, mid, jobs[0].key) && forall k | k != jobs[0].key :: Unchanged(s, mid, k)
             else mid == s
    ensures var n := FirstSettling(jobs);
      forall s' | Looped(mid, s', jobs[1..][..n - 1]) :: Looped(s, s', jobs[..n])
    ensures jobs[1..][..|jobs| - 1] == jobs[1..] && jobs[..|jobs|] == jobs
  {
    DoomedStep(jobs);
    var n := FirstSettling(jobs);
    hide AskedToGo, FirstSettling, Looped, Settles;
    assert jobs[1..][..n - 1] == jobs[1..n];
    forall s' | Looped(mid, s', jobs[1..n])
      ensures Looped(s, s', jobs[..n])
    {
      LoopedOne(s, mid, s', jobs, n);
    }
  }

  lemma CountReads(job: Object, counter: string)
    ensures Counts(job, counter) <==> Count(job, counter) > 0
  {
  }

  lemma EntriesRead(j: Entry)
    ensures HasFailed(j) <==> Counts(j.obj, "failed")
    ensures Settles(j) <==> !Counts(j.obj, "failed") && (Counts(j.obj, "active") || Counts(j.obj, "succeeded"))
    ensures Count(j.obj, "active") > 0 <==> Counts(j.obj, "active")
  {
    CountReads(j.obj, "failed");
    CountReads(j.obj, "active");
    CountReads(j.obj, "succeeded");
    hide Count, Counts;
  }

  lemma ListedJobs(h: Host, svc: Service, s: Store, jobs: seq<Entry>)
    requires IsListing(s, InstallJobs(h, svc), jobs)
    ensures AreThere(s, jobs)
    ensures forall i | 0 <= i < |jobs| :: IsInstallJob(s, jobs[i].key, h.name, svc.namespace)
    ensures forall k | IsInstallJob(s, k, h.name, svc.namespace) :: exists i | 0 <= i < |jobs| :: jobs[i].key == k
  {
    forall k | IsInstallJob(s, k, h.name, svc.namespace)
      ensures exists i | 0 <= i < |jobs| :: jobs[i].key == k
    {
      assert Matches(InstallJobs(h, svc), k, s[k]);
      var i :| 0 <= i < |jobs| && jobs[i] == Entry(k, s[k]);
    }
    forall i | 0 <= i < |jobs|
      ensures IsInstallJob(s, jobs[i].key, h.name, svc.namespace)
    {
      assert Matches(InstallJobs(h, svc), jobs[i].key, jobs[i].obj);
    }
  }

  /** What the loop finds in the list is what is there. */
  lemma JobsMean(h: Host, svc: Service, s: Store, jobs: seq<Entry>)
    requires IsListing(s, InstallJobs(h, svc), jobs)
    ensures forall k :: IsFailedJob(s, k, h.name, svc.namespace) <==> k in s && FailedIn(jobs, k)
    ensures (exists k :: IsSettledJob(s, k, h.name, svc.namespace)) <==> FirstSettling(jobs) < |jobs|
    ensures FirstSettling(jobs) < |jobs| ==>
      IsSettledJob(s, jobs[FirstSettling(jobs)].key, h.name, svc.namespace)
  {
    ListedJobs(h, svc, s, jobs);
    forall i | 0 <= i < |jobs|
      ensures HasFailed(jobs[i]) <==> IsFailedJob(s, jobs[i].key, h.name, svc.namespace)
      ensures Settles(jobs[i]) <==> IsSettledJob(s, jobs[i].key, h.name, svc.namespace)
    {
      EntriesRead(jobs[i]);
    }
    hide IsListing, HasFailed, Settles, Counts;
    forall k
      ensures IsFailedJob(s, k, h.name, svc.namespace) ==> k in s && FailedIn(jobs, k)
      ensures IsSettledJob(s, k, h.name, svc.namespace) ==> FirstSettling(jobs) < |jobs|
    {
      if IsInstallJob(s, k, h.name, svc.namespace) {
        var i :| 0 <= i < |jobs| && jobs[i].key == k;
      }
    }
    forall k | k in s && FailedIn(jobs, k)
      ensures IsFailedJob(s, k, h.name, svc.namespace)
    {
      var i :| 0 <= i < |jobs| && jobs[i].key == k && HasFailed(jobs[i]);
    }
  }

  lemma LoopTidies(h: Host, svc: Service, s: Store, s': Store, jobs: seq<Entry>, n: nat)
    requires IsListing(s, InstallJobs(h, svc), jobs) && n <= |jobs| && Looped(s, s', jobs[..n])
    ensures Tidied(h.name, svc.namespace, s, s')
    ensures n == |jobs| ==> AllTidied(h.name, svc.namespace, s, s')
  {
    JobsMean(h, svc, s, jobs);
    assert n == |jobs| ==> jobs[..n] == jobs;
    hide IsListing, IsFailedJob, AskedToGo, FirstSettling, IsSettledJob;
    forall k
      ensures FailedIn(jobs[..n], k) ==> FailedIn(jobs, k)
    {
      if FailedIn(jobs[..n], k) {
        var i :| 0 <= i < n && jobs[..n][i].key == k && HasFailed(jobs[..n][i]);
        assert jobs[i].key == k && HasFailed(jobs[i]);
      }
    }
  }

  lemma PodReply(h: Host, svc: Service, s: Store, a: Action)
    requires Answers(Asks(h, PodList(svc)), a) && Enabled(s, a) && !IsFault(a)
    ensures Apply(s, a) == s
    ensures Next(h, PodList(svc), a)
      == if exists k :: IsAgent(s, k, h.name, svc.namespace) then DONE else JobList(svc)
  {
    var pods := a.items.value;
    if k :| IsAgent(s, k, h.name, svc.namespace) {
      assert Matches(AgentPods(h, svc), k, s[k]);
      assert Entry(k, s[k]) in pods;
    }
    if pods != [] {
      assert Matches(AgentPods(h, svc), pods[0].key, pods[0].obj);
      assert IsAgent(s, pods[0].key, h.name, svc.namespace);
    }
  }

  lemma JobsReply(h: Host, svc: Service, s: Store, a: Action)
    requires Answers(Asks(h, JobList(svc)), a) && Enabled(s, a) && !IsFault(a)
    ensures Apply(s, a) == s && a.List? && a.items.Ok? && IsListing(s, InstallJobs(h, svc), a.items.value)
    ensures Next(h, JobList(svc), a) == JobScan(svc, a.items.value)
  {
    hide JobScan;
  }

  /** With an agent in the service's namespace nothing happens. With an install job there that is running or done and
      has not failed no other is made; otherwise the failed ones are deleted and a new one is made. */
  lemma AgentGoes(h: Host, svc: Service, s: Store, run: seq<Action>, err: Option<Error>, s': Store)
    requires Goes(h, PodList(svc), s, run, err, s')
    ensures AgentEnsured(h.name, svc.namespace, s, s', err)
  {
    hide Goes, Next, Asks, Answers, Enabled, Apply, IsFault, IsAgent, Tidied, AllTidied, JobMade, Looped;
    GoesOn(h, PodList(svc), s, run, err, s');
    PodReply(h, svc, s, run[0]);
    if exists k :: IsAgent(s, k, h.name, svc.namespace) {
      GoesNoFurther(h, None, s, run[1..], err, s');
    } else {
      var rest := run[1..];
      GoesOn(h, JobList(svc), s, rest, err, s');
      JobsReply(h, svc, s, rest[0]);
      JobsGo(h, svc, rest[0].items.value, s, rest[1..], err, s');
    }
  }

  lemma JobsGo(h: Host, svc: Service, jobs: seq<Entry>, s: Store, run: seq<Action>, err: Option<Error>, s': Store)
    requires IsListing(s, InstallJobs(h, svc), jobs) && Goes(h, JobScan(svc, jobs), s, run, err, s')
    ensures if exists k :: IsSettledJob(s, k, h.name, svc.namespace) then
              Tidied(h.name, svc.namespace, s, s')
              && exists k :: IsSettledJob(s, k, h.name, svc.namespace) && SettledAs(s[k], err)
            else exists mid :: AllTidied(h.name, svc.namespace, s, mid) && JobMade(h.name, svc.namespace, mid, s', err)
  {
    ListedJobs(h, svc, s, jobs);
    JobsMean(h, svc, s, jobs);
    JobLoopGoes(h, svc, jobs, s, run, err, s');
    PlainErrors();
    hide IsListing, Goes, IsSettledJob, Tidied, AllTidied, JobMade, Looped, JobScan, IsFailedJob;
    var n := FirstSettling(jobs);
    if n < |jobs| {
      LoopTidies(h, svc, s, s', jobs, n);
      EntriesRead(jobs[n]);
      assert SettledAs(s[jobs[n].key], err);
    } else {
      var mid :| Looped(s, mid, jobs) && JobMade(h.name, svc.namespace, mid, s', err);
      assert jobs[..n] == jobs;
      LoopTidies(h, svc, s, mid, jobs, n);
    }
  }

  // ---- a service that is gone or going ----

  lemma CleanupListed(h: Host, uid: string, s: Store, a: Action)
    requires Answers(Asks(h, CleanupList(uid)), a) && Enabled(s, a) && !IsFault(a)
    ensures Apply(s, a) == s
    ensures var to := Next(h, CleanupList(uid), a);
      if !HasFor(s, ProvisioningCluster, uid) then to == DONE
      else exists k :: IsFor(s, k, ProvisioningCluster, uid)
                       && to == if IsOnHost(s, k, h.name) then CleanupDelete(uid, k) else DONE
  {
    var listed := a.items.value;
    if k :| IsFor(s, k, ProvisioningCluster, uid) {
      assert Matches(ByServiceUid(ProvisioningCluster, uid), k, s[k]);
      assert Entry(k, s[k]) in listed;
    }
    if listed != [] {
      assert Matches(ByServiceUid(ProvisioningCluster, uid), listed[0].key, listed[0].obj);
      assert IsFor(s, listed[0].key, ProvisioningCluster, uid);
    }
  }

  lemma CleanupDeleted(h: Host, uid: string, k: Key, s: Store, a: Action)
    requires k in s && Answers(Asks(h, CleanupDelete(uid, k)), a) && Enabled(s, a) && !IsFault(a)
    ensures Next(h, CleanupDelete(uid, k), a) == DONE
    ensures AskedToGo(s, Apply(s, a), k) && forall j | j != k :: Unchanged(s, Apply(s, a), j)
  {
  }

  /** A cleanup asks a cluster of the service to go if it is this host's, and never fails. */
  lemma CleanupGoes(h: Host, uid: string, s: Store, run: seq<Action>, err: Option<Error>, s': Store)
    requires Goes(h, CleanupList(uid), s, run, err, s')
    ensures CleanedUp(h.name, uid, s, s', err)
  {
    hide Goes, Next, Asks, Answers, Enabled, Apply, IsFault, IsOnHost, AskedToGo;
    GoesOn(h, CleanupList(uid), s, run, err, s');
    CleanupListed(h, uid, s, run[0]);
    var rest := run[1..];
    if HasFor(s, ProvisioningCluster, uid) {
      var k :| IsFor(s, k, ProvisioningCluster, uid)
        && Next(h, CleanupList(uid), run[0]) == if IsOnHost(s, k, h.name) then CleanupDelete(uid, k) else DONE;
      if IsOnHost(s, k, h.name) {
        GoesOn(h, CleanupDelete(uid, k), s, rest, err, s');
        CleanupDeleted(h, uid, k, s, rest[0]);
        GoesNoFurther(h, None, Apply(s, rest[0]), rest[1..], err, s');
      } else {
        GoesNoFurther(h, None, s, rest, err, s');
      }
      assert WentIfHere(h.name, s, s', k);
    } else {
      GoesNoFurther(h, None, s, rest, err, s');
    }
  }

  // ---- the management cluster, token and secret ----

  lemma MgmtListed(h: Host, svc: Service, ready: bool, s: Store, a: Action) returns (k: Key)
    requires Answers(Asks(h, MgmtList(svc, ready)), a) && Enabled(s, a) && !IsFault(a)
    ensures Apply(s, a) == s
    ensures var to := Next(h, MgmtList(svc, ready), a);
      if !HasFor(s, ManagementCluster, svc.uid) then to == Fails(Wrapped(RancherResourcesPending))
      else k in s && IsFor(s, k, ManagementCluster, svc.uid)
           && to == MgmtPatch(svc, ready, k, MgmtChange(h, svc, ready, s[k]))
  {
    hide MgmtChange;
    var listed := a.items.value;
    k := if listed == [] then TokenKey("") else listed[0].key;
    if j :| IsFor(s, j, ManagementCluster, svc.uid) {
      assert Matches(ByServiceUid(ManagementCluster, svc.uid), j, s[j]);
      assert Entry(j, s[j]) in listed;
    }
    if listed != [] {
      assert Matches(ByServiceUid(ManagementCluster, svc.uid), listed[0].key, listed[0].obj);
      assert IsFor(s, listed[0].key, ManagementCluster, svc.uid);
    }
  }

  lemma FinalizersCut(fs: seq<string>, x: string)
    ensures x !in fs ==> WithoutFirst(fs, x) == fs
    ensures x in fs ==> IsFirstCut(fs, x, WithoutFirst(fs, x))
  {
    if x !in fs {
      WithoutFirstAt(fs, x, |fs|);
    } else {
      var i := FirstOf(fs, x);
      WithoutFirstAt(fs, x, i);
    }
  }

  lemma FirstOf(fs: seq<string>, x: string) returns (i: nat)
    requires x in fs
    ensures i < |fs| && fs[i] == x && x !in fs[..i]
  {
    i := 0;
    while fs[i] != x
      invariant i < |fs| && x !in fs[..i] && x in fs[i..]
      decreases |fs| - i
    {
      i := i + 1;
    }
  }

  /** The change sent is the edit that is wanted, where nobody has changed the cluster since it was read. */
  lemma ChangeEdits(h: Host, svc: Service, ready: bool, was: Object)
    ensures Edited(h.config, svc, ready, was, Patched(was, MgmtChange(h, svc, ready, was)))
  {
    var change := MgmtChange(h, svc, ready, was);
    FinalizersCut(was.finalizers, FINALIZER_APP);
    forall k
      ensures Outcomes.LabelAt(Patched(was, change).labels, k) == Wanted(h.config, svc, ready, was.labels, k)
    {
      DriftedPatch(h, svc, ready, was, was, k);
      LabelSync.LookupsAreProtected(LABEL_TARGET_APP);
      hide MgmtChange, LabelSync.Synced, MergedLabels;
    }
    hide MergedLabels, LabelSync.SyncResult, TargetApp, Wanted, WithoutFirst;
  }

  lemma MgmtPatchedAs(h: Host, svc: Service, ready: bool, k: Key, s: Store, a: Action)
    requires IsFor(s, k, ManagementCluster, svc.uid) && Enabled(s, a) && !IsFault(a)
    requires Answers(Asks(h, MgmtPatch(svc, ready, k, MgmtChange(h, svc, ready, s[k]))), a)
    ensures ManagementEdited(h.config, svc, ready, s, Apply(s, a), k)
    ensures Next(h, MgmtPatch(svc, ready, k, MgmtChange(h, svc, ready, s[k])), a)
      == if ready then PodList(svc) else TokenGet(svc, k.name)
    ensures forall j | j != k :: Unchanged(s, Apply(s, a), j)
  {
    ChangeEdits(h, svc, ready, s[k]);
    hide MgmtChange, Edited, Patched, Unchanged;
    PatchTakes(k, MgmtChange(h, svc, ready, s[k]), s, a);
  }

  /** A patch that does not fail finds the cluster it was listed as, and is what is stored. */
  lemma PatchTakes(k: Key, change: Change, s: Store, a: Action)
    requires k in s && a.Patch? && a.key == k && a.change == change && Enabled(s, a) && !IsFault(a)
    ensures a.done.Ok? && Apply(s, a) == Stored(s, k, Patched(s[k], change))
    ensures forall j | j != k :: Unchanged(s, Apply(s, a), j)
  {
    hide Patched, Admits;
  }

  lemma TokenReply(h: Host, svc: Service, mgmt: string, s: Store, a: Action)
    requires Answers(Asks(h, TokenGet(svc, mgmt)), a) && Enabled(s, a) && !IsFault(a)
    ensures Apply(s, a) == s
    ensures Next(h, TokenGet(svc, mgmt), a)
      == if Key(LOCAL, RegistrationToken, mgmt, "default-token") in s then SecretGet(svc)
         else Fails(Wrapped(RancherResourcesPending))
  {
  }

  lemma SecretReply(h: Host, svc: Service, s: Store, a: Action)
    requires Answers(Asks(h, SecretGet(svc)), a) && Enabled(s, a) && !IsFault(a)
    ensures Apply(s, a) == s
    ensures Next(h, SecretGet(svc), a)
      == if Key(h.name, SecretKind, svc.namespace, "vc-" + svc.name) in s then PodList(svc)
         else Fails(Wrapped(RancherResourcesPending))
  {
  }

  /** While the cluster is not ready, the worker waits for token and secret. */
  lemma TokenGoes(h: Host, svc: Service, mgmt: string, s: Store, run: seq<Action>, err: Option<Error>, s': Store)
    requires Goes(h, TokenGet(svc, mgmt), s, run, err, s')
    ensures if CanInstall(h.name, svc, false, s, mgmt) then AgentEnsured(h.name, svc.namespace, s, s', err)
            else s' == s && Waits(err)
  {
    PlainErrors();
    hide Goes, Next, Asks, Answers, Enabled, Apply, IsFault, AgentEnsured, IsWaiting;
    GoesOn(h, TokenGet(svc, mgmt), s, run, err, s');
    TokenReply(h, svc, mgmt, s, run[0]);
    var rest := run[1..];
    if Key(LOCAL, RegistrationToken, mgmt, "default-token") in s {
      GoesOn(h, SecretGet(svc), s, rest, err, s');
      SecretReply(h, svc, s, rest[0]);
      if Key(h.name, SecretKind, svc.namespace, "vc-" + svc.name) in s {
        AgentGoes(h, svc, s, rest[1..], err, s');
      } else {
        GoesNoFurther(h, Some(Wrapped(RancherResourcesPending)), s, rest[1..], err, s');
      }
    } else {
      GoesNoFurther(h, Some(Wrapped(RancherResourcesPending)), s, rest, err, s');
    }
  }

  lemma SameNeeds(host: string, svc: Service, ready: bool, s: Store, s': Store, k: Key)
    requires k.kind == ManagementCluster && forall j | j != k :: Unchanged(s, s', j)
    ensures CanInstall(host, svc, ready, s, k.name) <==> CanInstall(host, svc, ready, s', k.name)
  {
    assert Unchanged(s, s', Key(LOCAL, RegistrationToken, k.name, "default-token"));
    assert Unchanged(s, s', Key(host, SecretKind, svc.namespace, "vc-" + svc.name));
  }

  /** With a management cluster the worker edits it, and goes on to the agent once all is there that it needs. */
  lemma ResourcesGo(h: Host, svc: Service, ready: bool, s: Store, run: seq<Action>, err: Option<Error>, s': Store)
    requires Goes(h, MgmtList(svc, ready), s, run, err, s')
    ensures Installed(h.config, h.name, svc, ready, s, s', err)
  {
    PlainErrors();
    hide Goes, Next, Asks, Answers, Enabled, Apply, IsFault, AgentEnsured, IsWaiting, MgmtChange, CanInstall,
      ManagementEdited, IsFor;
    GoesOn(h, MgmtList(svc, ready), s, run, err, s');
    var k := MgmtListed(h, svc, ready, s, run[0]);
    var rest := run[1..];
    if HasFor(s, ManagementCluster, svc.uid) {
      GoesOn(h, MgmtPatch(svc, ready, k, MgmtChange(h, svc, ready, s[k])), s, rest, err, s');
      MgmtPatchedAs(h, svc, ready, k, s, rest[0]);
      PatchedGoes(h, svc, ready, k, s, Apply(s, rest[0]), rest[1..], err, s');
    } else {
      GoesNoFurther(h, Some(Wrapped(RancherResourcesPending)), s, rest, err, s');
    }
  }

  lemma PatchedGoes(h: Host, svc: Service, ready: bool, k: Key, s: Store, mid: Store, run: seq<Action>,
                    err: Option<Error>, s': Store)
    requires ManagementEdited(h.config, svc, ready, s, mid, k) && forall j | j != k :: Unchanged(s, mid, j)
    requires Goes(h, if ready then PodList(svc) else TokenGet(svc, k.name), mid, run, err, s')
    ensures Installed(h.config, h.name, svc, ready, s, s', err)
  {
    SameNeeds(h.name, svc, ready, s, mid, k);
    assert IsFor(s, k, ManagementCluster, svc.uid);
    assert ready ==> CanInstall(h.name, svc, ready, s, k.name);
    if ready {
      AgentGoes(h, svc, mid, run, err, s');
    } else {
      TokenGoes(h, svc, k.name, mid, run, err, s');
    }
    hide Goes, AgentEnsured, CanInstall, ManagementEdited, IsFor, Waits;
    if CanInstall(h.name, svc, ready, s, k.name) {
      assert ResourcesThere(h.config, h.name, svc, ready, s, mid);
    } else {
      assert HasFor(s, ManagementCluster, svc.uid);
    }
  }

  // ---- the provisioning cluster ----

  lemma ClusterListed(h: Host, svc: Service, nsLabels: Labels, s: Store, a: Action)
    requires Answers(Asks(h, ClusterList(svc, nsLabels)), a) && Enabled(s, a) && !IsFault(a)
    ensures Apply(s, a) == s
    ensures var to := Next(h, ClusterList(svc, nsLabels), a);
      if HasFor(s, ProvisioningCluster, svc.uid) then
        to.MgmtList? && to.svc == svc && Ensured(h.config, h.name, svc, s, s, to.ready)
      else if LABEL_RANCHER_PROJECT in nsLabels then to == ProjectGet(svc, nsLabels[LABEL_RANCHER_PROJECT])
      else to == AfterProject(h, svc, BaseLabels(h, svc)[LABEL_PROJECT_UID := NO_RANCHER_PROJECT])
  {
    hide NewlyMade, BaseLabels, AfterProject;
    var listed := a.items.value;
    if k :| IsFor(s, k, ProvisioningCluster, svc.uid) {
      assert Matches(ByServiceUid(ProvisioningCluster, svc.uid), k, s[k]);
      assert Entry(k, s[k]) in listed;
    }
    if listed != [] {
      assert Matches(ByServiceUid(ProvisioningCluster, svc.uid), listed[0].key, listed[0].obj);
      assert IsFor(s, listed[0].key, ProvisioningCluster, svc.uid);
    }
  }

  lemma ProjectRead(h: Host, svc: Service, project: string, s: Store, a: Action)
    requires Answers(Asks(h, ProjectGet(svc, project)), a) && Enabled(s, a) && !IsFault(a)
    ensures Apply(s, a) == s
    ensures var k := Key(LOCAL, Project, h.name, project);
      Next(h, ProjectGet(svc, project), a) ==
        if k in s then AfterProject(h, svc, BaseLabels(h, svc)[LABEL_PROJECT_UID := s[k].uid][LABEL_PROJECT_NAME := project])
        else Fails(Wrapped(ApiError))
  {
    hide BaseLabels, AfterProject;
  }

  lemma WorkspaceRead(h: Host, svc: Service, labels: Labels, s: Store, a: Action)
    requires Answers(Asks(h, AfterProject(h, svc, labels)), a) && Enabled(s, a) && !IsFault(a)
    ensures Apply(s, a) == s
    ensures var k := WorkspaceFor(h.config, labels);
      Next(h, AfterProject(h, svc, labels), a) ==
        if k in s then AfterWorkspace(h, svc, labels, k.name)
        else if h.config.fleetAutoCreate then WorkspaceCreate(svc, labels, k.name)
        else Fails(OtherError)
  {
    hide AfterWorkspace, GetTargetClusterNamespace;
  }

  lemma WorkspaceMade(h: Host, svc: Service, labels: Labels, s: Store, a: Action)
    requires WorkspaceFor(h.config, labels) !in s && h.config.fleetAutoCreate
    requires Answers(Asks(h, WorkspaceCreate(svc, labels, WorkspaceFor(h.config, labels).name)), a)
    requires Enabled(s, a) && !IsFault(a)
    ensures WorkspaceEnsured(h.config, WorkspaceFor(h.config, labels), s, Apply(s, a))
    ensures Next(h, WorkspaceCreate(svc, labels, WorkspaceFor(h.config, labels).name), a)
      == AfterWorkspace(h, svc, labels, WorkspaceFor(h.config, labels).name)
  {
    hide AfterWorkspace, GetTargetClusterNamespace;
    assert a.key == WorkspaceFor(h.config, labels);
    assert IsNew(a.obj, map[LABEL_AUTO_CREATED := "true"]);
  }

  lemma ClusterCreated(h: Host, svc: Service, labels: Labels, target: string, choice: NameChoice, s: Store, a: Action)
    requires GetProvisioningClusterName(h.name, svc) == Some(choice)
    requires Answers(Asks(h, ClusterCreate(svc, labels, target, choice)), a) && Enabled(s, a) && !IsFault(a)
    ensures ClusterMade(h.name, svc, labels, target, s, Apply(s, a))
    ensures Next(h, ClusterCreate(svc, labels, target, choice), a) == MgmtList(svc, false)
  {
    NamedAsAsked(h.name, svc, a.key.name);
    hide GetProvisioningClusterName, MayBeNamed;
    assert IsNew(a.obj, labels);
    assert a.key == Key(LOCAL, ProvisioningCluster, target, a.key.name);
    assert MadeUnder(a.key, labels, s, Apply(s, a));
  }

  lemma RefusedHasNoName(host: string, svc: Service)
    requires GetProvisioningClusterName(host, svc).None?
    ensures forall name :: !MayBeNamed(host, svc, name)
  {
    forall name
      ensures !MayBeNamed(host, svc, name)
    {
      NamedAsAsked(host, svc, name);
    }
  }

  /** What follows once the service is known not to have a cluster. */
  ghost predicate MadeOrNot(h: Host, svc: Service, s: Store, s': Store, err: Option<Error>) {
    || (NotEnsured(h.config, h.name, svc, s, s') && Errs(err))
    || exists mid, ready ::
      Ensured(h.config, h.name, svc, s, mid, ready) && Installed(h.config, h.name, svc, ready, mid, s', err)
  }

  lemma NameGoes(h: Host, svc: Service, labels: Labels, s: Store, mid: Store, run: seq<Action>, err: Option<Error>,
                 s': Store)
    requires !HasFor(s, ProvisioningCluster, svc.uid) && LabelsFrom(h.name, svc, s, labels)
    requires WorkspaceEnsured(h.config, WorkspaceFor(h.config, labels), s, mid)
    requires Goes(h, AfterWorkspace(h, svc, labels, WorkspaceFor(h.config, labels).name), mid, run, err, s')
    ensures MadeOrNot(h, svc, s, s', err)
  {
    PlainErrors();
    hide Goes, Next, Asks, Answers, Enabled, Apply, IsFault, LabelsFrom, WorkspaceEnsured, Installed, HasFor, ClusterMade,
      GetProvisioningClusterName, IsWaiting, MayBeNamed, WorkspaceFor;
    var target := WorkspaceFor(h.config, labels).name;
    match GetProvisioningClusterName(h.name, svc)
    case None =>
      RefusedHasNoName(h.name, svc);
      GoesNoFurther(h, Some(Wrapped(OtherError)), mid, run, err, s');
      assert NoPlaceFor(h.config, h.name, svc, labels, s, s');
    case Some(choice) =>
      GoesOn(h, ClusterCreate(svc, labels, target, choice), mid, run, err, s');
      ClusterCreated(h, svc, labels, target, choice, mid, run[0]);
      ResourcesGo(h, svc, false, Apply(mid, run[0]), run[1..], err, s');
      assert NewlyMade(h.config, h.name, svc, labels, s, mid, Apply(mid, run[0]));
      assert Ensured(h.config, h.name, svc, s, Apply(mid, run[0]), false);
  }

  lemma PlaceGoes(h: Host, svc: Service, labels: Labels, s: Store, run: seq<Action>, err: Option<Error>, s': Store)
    requires !HasFor(s, ProvisioningCluster, svc.uid) && LabelsFrom(h.name, svc, s, labels)
    requires Goes(h, AfterProject(h, svc, labels), s, run, err, s')
    ensures MadeOrNot(h, svc, s, s', err)
  {
    PlainErrors();
    hide Goes, Next, Asks, Answers, Enabled, Apply, IsFault, LabelsFrom, HasFor, IsWaiting, MayBeNamed, WorkspaceFor,
      AfterWorkspace, GetTargetClusterNamespace, Ensured, Installed;
    GoesOn(h, AfterProject(h, svc, labels), s, run, err, s');
    WorkspaceRead(h, svc, labels, s, run[0]);
    var key := WorkspaceFor(h.config, labels);
    var rest := run[1..];
    if key in s {
      NameGoes(h, svc, labels, s, s, rest, err, s');
    } else if h.config.fleetAutoCreate {
      var pc := WorkspaceCreate(svc, labels, key.name);
      GoesOn(h, pc, s, rest, err, s');
      WorkspaceMade(h, svc, labels, s, rest[0]);
      NameGoes(h, svc, labels, s, Apply(s, rest[0]), rest[1..], err, s');
    } else {
      GoesNoFurther(h, Some(OtherError), s, rest, err, s');
      assert NoPlaceFor(h.config, h.name, svc, labels, s, s');
    }
  }

  lemma ClusterGoes(h: Host, svc: Service, s: Store, run: seq<Action>, err: Option<Error>, s': Store)
    requires NamespaceKey(h, svc) in s && Goes(h, ClusterList(svc, s[NamespaceKey(h, svc)].labels), s, run, err, s')
    ensures MadeOrNot(h, svc, s, s', err)
  {
    PlainErrors();
    var nsLabels := s[NamespaceKey(h, svc)].labels;
    LabelsAreFrom(h, svc, s);
    hide Goes, Next, Asks, Answers, Enabled, Apply, IsFault, LabelsFrom, IsWaiting, Ensured, Installed, AfterProject,
      BaseLabels, NoPlaceFor, HasFor, NamespaceKey;
    GoesOn(h, ClusterList(svc, nsLabels), s, run, err, s');
    ClusterListed(h, svc, nsLabels, s, run[0]);
    var to, rest := Next(h, ClusterList(svc, nsLabels), run[0]), run[1..];
    if HasFor(s, ProvisioningCluster, svc.uid) {
      ResourcesGo(h, svc, to.ready, s, rest, err, s');
    } else if LABEL_RANCHER_PROJECT in nsLabels {
      var project := nsLabels[LABEL_RANCHER_PROJECT];
      var k := Key(LOCAL, Project, h.name, project);
      GoesOn(h, ProjectGet(svc, project), s, rest, err, s');
      ProjectRead(h, svc, project, s, rest[0]);
      if k in s {
        var labels := BaseLabels(h, svc)[LABEL_PROJECT_UID := s[k].uid][LABEL_PROJECT_NAME := project];
        PlaceGoes(h, svc, labels, s, rest[1..], err, s');
      } else {
        GoesNoFurther(h, Some(Wrapped(ApiError)), s, rest[1..], err, s');
      }
    } else {
      PlaceGoes(h, svc, BaseLabels(h, svc)[LABEL_PROJECT_UID := NO_RANCHER_PROJECT], s, rest, err, s');
    }
  }

  /** The labels the worker puts together are those of the project in which the namespace is. */
  lemma LabelsAreFrom(h: Host, svc: Service, s: Store)
    requires NamespaceKey(h, svc) in s
    ensures var nsLabels := s[NamespaceKey(h, svc)].labels;
      if LABEL_RANCHER_PROJECT in nsLabels then
        var k := Key(LOCAL, Project, h.name, nsLabels[LABEL_RANCHER_PROJECT]);
        if k in s then
          LabelsFrom(h.name, svc, s, BaseLabels(h, svc)[LABEL_PROJECT_UID := s[k].uid][LABEL_PROJECT_NAME := k.name])
        else forall labels :: !LabelsFrom(h.name, svc, s, labels)
      else LabelsFrom(h.name, svc, s, BaseLabels(h, svc)[LABEL_PROJECT_UID := NO_RANCHER_PROJECT])
  {
  }

  // ---- all of it ----

  lemma NamespaceRead(h: Host, svc: Service, s: Store, a: Action)
    requires Answers(Asks(h, NamespaceGet(svc)), a) && Enabled(s, a) && !IsFault(a)
    ensures Apply(s, a) == s && NamespaceKey(h, svc) == Key(h.name, NamespaceKind, "", svc.namespace)
    ensures Next(h, NamespaceGet(svc), a)
      == if NamespaceKey(h, svc) in s then ClusterList(svc, s[NamespaceKey(h, svc)].labels) else Fails(Wrapped(ApiError))
  {
  }

  /** What a reconcile comes to, from what the informer's cache holds under the item's key. */
  ghost predicate Reconciled(c: Config, host: string, item: Item, cached: Cached, s: Store, s': Store,
                             err: Option<Error>) {
    match cached
    case CacheError => s' == s && Errs(err)
    case Missing => if item.uid == "" then s' == s && err == None else CleanedUp(host, item.uid, s, s', err)
    case Found(svc) => if svc.deleting then CleanedUp(host, svc.uid, s, s', err) else Deployed(c, host, svc, s, s', err)
  }

  lemma StartsAs(item: Item, cached: Cached)
    ensures match cached
      case CacheError => Start(item, cached) == Fails(Wrapped(OtherError))
      case Missing => Start(item, cached) == if item.uid == "" then DONE else CleanupList(item.uid)
      case Found(svc) =>
        Start(item, cached) == if svc.deleting then CleanupList(svc.uid)
                               else if IsImported(svc) then NamespaceGet(svc) else DONE
  {
  }

  lemma ServiceGoes(h: Host, svc: Service, s: Store, run: seq<Action>, err: Option<Error>, s': Store)
    requires IsImported(svc) && Goes(h, NamespaceGet(svc), s, run, err, s')
    ensures Deployed(h.config, h.name, svc, s, s', err)
  {
    PlainErrors();
    hide Goes, Next, Asks, Answers, Enabled, Apply, IsFault, IsWaiting, Ensured, Installed, NotEnsured, IsImported;
    GoesOn(h, NamespaceGet(svc), s, run, err, s');
    NamespaceRead(h, svc, s, run[0]);
    if NamespaceKey(h, svc) in s {
      ClusterGoes(h, svc, s, run[1..], err, s');
    } else {
      GoesNoFurther(h, Some(Wrapped(ApiError)), s, run[1..], err, s');
    }
  }

  /** Every reconcile in which no call fails and nobody acts in between comes to exactly what `Outcomes` says: from any
      store, for whatever the cache holds, and whichever order the servers list in. */
  lemma ReconcileComesTo(h: Host, item: Item, cached: Cached, s: Store, run: seq<Action>, err: Option<Error>)
    requires Walk(Worker(h), Start(item, cached), run, Finished(err)) && Possible(s, run) && FaultFree(run)
    ensures Reconciled(h.config, h.name, item, cached, s, After(s, run), err)
  {
    PlainErrors();
    StartsAs(item, cached);
    var s' := After(s, run);
    assert Goes(h, Start(item, cached), s, run, err, s');
    hide Goes, Walk, Possible, After, FaultFree, IsWaiting, CleanedUp, Start, IsImported;
    match cached
    case CacheError => GoesNoFurther(h, Some(Wrapped(OtherError)), s, run, err, s');
    case Missing =>
      if item.uid == "" {
        GoesNoFurther(h, None, s, run, err, s');
      } else {
        CleanupGoes(h, item.uid, s, run, err, s');
      }
    case Found(svc) =>
      if svc.deleting {
        CleanupGoes(h, svc.uid, s, run, err, s');
      } else if IsImported(svc) {
        ServiceGoes(h, svc, s, run, err, s');
      } else {
        GoesNoFurther(h, None, s, run, err, s');
      }
  }
}
