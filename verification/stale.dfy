/** Deleting the management clusters of services that are gone (`SyncStaleResources`): the program, and what
    sweeping all management clusters amounts to. */
module Stale {
  import opened Text
  import opened Api
  import opened Calls
  import opened Constants
  import opened Errors

  /** A management cluster as the reconcile has read it. */
  datatype Cluster = Cluster(key: Key, obj: Object)

  datatype Pc = ServicesList | ClusterDelete | Finished(err: Option<Error>)

  const DONE := Finished(None)

  function Fails(e: Error): Pc {
    Finished(Some(e))
  }


  function Services(host: string): Query {
    Query(host, ServiceKind, None, HasValue(LABEL_APP, "vcluster"))
  }

  predicate HasUidIn(services: seq<Entry>, uid: string) {
    exists i | 0 <= i < |services| :: services[i].obj.uid == uid
  }

  function Start(m: Cluster, hasHandler: bool, reachable: bool): Pc {
    if ServiceUidOf(m.obj) == "" || HostNameOf(m.obj) == "" || !hasHandler then DONE
    else if !reachable then Fails(Wrapped(OtherError))
    else ServicesList
  }

  function Asks(m: Cluster, pc: Pc): Ask {
    match pc
    case ServicesList => AskList(Services(HostNameOf(m.obj)))
    case ClusterDelete => AskDelete(m.key)
    case Finished(_) => AskNothing
  }

  function Next(m: Cluster, pc: Pc, a: Action): Pc {
    if !Answers(Asks(m, pc), a) then pc else
    match pc
    case ServicesList =>
      (match a.items
       case Ok(services) => if HasUidIn(services, ServiceUidOf(m.obj)) then DONE else ClusterDelete
       case _ => Fails(Wrapped(ApiError)))
    case ClusterDelete => if a.done.Ok? || a.done.NotFound? then DONE else Fails(Wrapped(ApiError))
    case Finished(_) => pc
  }

  function Sweep(m: Cluster): Program<Pc> {
    Program(pc => Asks(m, pc), (pc, a) => Next(m, pc, a))
  }

  // ---- what a sweep does ----

  predicate IsServiceOf(s: Store, k: Key, host: string, uid: string) {
    k in s && k.cluster == host && k.kind == ServiceKind && s[k].uid == uid && Lookup(s[k].labels, LABEL_APP) == "vcluster"
  }

  /** The service the management cluster was made for is not on its host. */
  ghost predicate IsOrphan(s: Store, obj: Object) {
    ServiceUidOf(obj) != "" && HostNameOf(obj) != "" && forall k :: !IsServiceOf(s, k, HostNameOf(obj), ServiceUidOf(obj))
  }

  lemma ListingDecides(s: Store, host: string, uid: string, services: seq<Entry>)
    requires IsListing(s, Services(host), services)
    ensures HasUidIn(services, uid) <==> exists k :: IsServiceOf(s, k, host, uid)
  {
    if k :| IsServiceOf(s, k, host, uid) {
      var i :| 0 <= i < |services| && services[i] == Entry(k, s[k]);
    }
    if HasUidIn(services, uid) {
      var i :| 0 <= i < |services| && services[i].obj.uid == uid;
      assert IsServiceOf(s, services[i].key, host, uid);
    }
  }

  /** The store after an orphan's cluster was asked to go. */
  function Swept(s: Store, key: Key): Store {
    if key in s then Stored(s, key, s[key].(deleting := true)) else s
  }

  lemma FinishedAsksNothing(m: Cluster)
    ensures forall e :: Sweep(m).asks(Finished(e)) == AskNothing
  {
  }

  lemma DeleteReply(m: Cluster, s: Store, a: Action)
    requires Answers(Asks(m, ClusterDelete), a) && Enabled(s, a) && !IsFault(a)
    ensures Apply(s, a) == Swept(s, m.key) && Next(m, ClusterDelete, a) == DONE
  {
  }

  lemma ListReply(m: Cluster, s: Store, a: Action)
    requires Answers(Asks(m, ServicesList), a) && Enabled(s, a) && !IsFault(a)
    requires ServiceUidOf(m.obj) != "" && HostNameOf(m.obj) != ""
    ensures Apply(s, a) == s && Next(m, ServicesList, a) == if IsOrphan(s, m.obj) then ClusterDelete else DONE
  {
    ListingDecides(s, HostNameOf(m.obj), ServiceUidOf(m.obj), a.items.value);
    hide Services;
  }

  /** A sweep none of whose calls fails deletes the management cluster exactly if it is an orphan, and touches
      nothing else. */
  lemma SweepExact(s: Store, m: Cluster, hasHandler: bool, run: seq<Action>, err: Option<Error>)
    requires Walk(Sweep(m), Start(m, hasHandler, true), run, Finished(err)) && Possible(s, run) && FaultFree(run)
    ensures err == None
    ensures After(s, run) == if hasHandler && IsOrphan(s, m.obj) then Swept(s, m.key) else s
  {
    hide Follows, Reached, Walk, Next, Asks, Enabled, Apply, IsOrphan;
    FinishedAsksNothing(m);
    var pc := Start(m, hasHandler, true);
    if pc.Finished? {
      WalkEnds(Sweep(m), pc, run, Finished(err));
      assert !hasHandler || !IsOrphan(s, m.obj) by { NoLabelsNoOrphan(s, m.obj); }
    } else {
      SweepsOn(s, m, run, err);
    }
  }

  /** A sweep ends with an error if and only if it had to list the host's services and could not reach the host, or
      one of its calls failed. */
  lemma SweepErrsExactly(m: Cluster, hasHandler: bool, reachable: bool, run: seq<Action>, err: Option<Error>)
    requires Walk(Sweep(m), Start(m, hasHandler, reachable), run, Finished(err))
    ensures err.Some? <==>
      (Lookup(m.obj.labels, LABEL_SERVICE_UID) != "" && Lookup(m.obj.labels, LABEL_HOST_CLUSTER) != "" && hasHandler
       && !reachable)
      || !FaultFree(run)
  {
    FinishedAsksNothing(m);
    hide Follows, HasUidIn, IsFault, Start;
    StartErrs(m, hasHandler, reachable);
    var pc := Start(m, hasHandler, reachable);
    if pc.Finished? {
      WalkEnds(Sweep(m), pc, run, Finished(err));
    } else {
      assert run != [];
      WalkFirst(Sweep(m), ServicesList, run, Finished(err));
      ListFaults(m, run[0]);
      var next := Next(m, ServicesList, run[0]);
      if next.Finished? {
        WalkEnds(Sweep(m), next, run[1..], Finished(err));
      } else {
        assert run[1..] != [];
        WalkFirst(Sweep(m), ClusterDelete, run[1..], Finished(err));
        DeleteFaults(m, run[1]);
        WalkEnds(Sweep(m), Next(m, ClusterDelete, run[1]), run[1..][1..], Finished(err));
      }
    }
  }

  lemma StartErrs(m: Cluster, hasHandler: bool, reachable: bool)
    ensures var pc := Start(m, hasHandler, reachable);
      && (pc == ServicesList || pc.Finished?)
      && (pc.Finished? && pc.err.Some? <==>
           Lookup(m.obj.labels, LABEL_SERVICE_UID) != "" && Lookup(m.obj.labels, LABEL_HOST_CLUSTER) != "" && hasHandler
           && !reachable)
  {
  }

  lemma ListFaults(m: Cluster, a: Action)
    requires Answers(Asks(m, ServicesList), a)
    ensures var to := Next(m, ServicesList, a);
      to == ClusterDelete || (to.Finished? && (to.err.Some? <==> IsFault(a)))
    ensures IsFault(a) ==> Next(m, ServicesList, a).Finished?
  {
  }

  lemma DeleteFaults(m: Cluster, a: Action)
    requires Answers(Asks(m, ClusterDelete), a)
    ensures Next(m, ClusterDelete, a).Finished? && (Next(m, ClusterDelete, a).err.Some? <==> IsFault(a))
  {
  }

  lemma NoLabelsNoOrphan(s: Store, obj: Object)
    ensures ServiceUidOf(obj) == "" || HostNameOf(obj) == "" ==> !IsOrphan(s, obj)
  {
  }

  lemma SweepsOn(s: Store, m: Cluster, run: seq<Action>, err: Option<Error>)
    requires Walk(Sweep(m), ServicesList, run, Finished(err)) && Possible(s, run) && FaultFree(run)
    requires ServiceUidOf(m.obj) != "" && HostNameOf(m.obj) != ""
    ensures err == None
    ensures After(s, run) == if IsOrphan(s, m.obj) then Swept(s, m.key) else s
  {
    hide Follows, Next, Asks, Enabled, Apply, IsOrphan, IsFault;
    FinishedAsksNothing(m);
    assert run != [];
    WalkFirst(Sweep(m), ServicesList, run, Finished(err));
    PossibleFirst(s, run);
    ListReply(m, s, run[0]);
    var rest := run[1..];
    if IsOrphan(s, m.obj) {
      assert rest != [];
      WalkFirst(Sweep(m), ClusterDelete, rest, Finished(err));
      PossibleFirst(s, rest);
      assert rest[0] == run[1];
      DeleteReply(m, s, rest[0]);
      WalkEnds(Sweep(m), DONE, rest[1..], Finished(err));
    } else {
      WalkEnds(Sweep(m), DONE, rest, Finished(err));
    }
  }

  /** Every labelled management cluster whose host has a handler has its service there or is going already. */
  ghost predicate Clean(s: Store, hosts: set<string>) {
    forall k | k in s && k.kind == ManagementCluster && HostNameOf(s[k]) in hosts :: IsOrphan(s, s[k]) ==> s[k].deleting
  }

  /** A sweep of the management cluster `k`, as it is in `s`, without failures and with nothing in between. */
  ghost predicate SweepsTo(s: Store, hosts: set<string>, k: Key, run: seq<Action>, to: Store)
    requires k in s
  {
    var m := Cluster(k, s[k]);
    Possible(s, run) && FaultFree(run) && Walk(Sweep(m), Start(m, HostNameOf(s[k]) in hosts, true), run, DONE)
    && After(s, run) == to
  }

  ghost predicate SweepKeeps(s: Store, hosts: set<string>, k: Key)
    requires k in s
  {
    forall run, to | SweepsTo(s, hosts, k, run, to) :: to == s
  }

  lemma SweptChanges(s: Store, k: Key)
    requires k in s && (s[k].deleting ==> s[k].finalizers != [])
    ensures Swept(s, k) == s <==> s[k].deleting
  {
    if s[k].deleting {
      assert s[k := s[k].(deleting := true)] == s;
    } else if s[k].finalizers != [] {
      assert Swept(s, k)[k].deleting;
    }
  }

  lemma OneCall(s: Store, m: Cluster, pc: Pc, run: seq<Action>, mid: Pc, a: Action)
    requires Walk(Sweep(m), pc, run, mid) && Possible(s, run) && FaultFree(run)
    requires Answers(Asks(m, mid), a) && Enabled(After(s, run), a) && !IsFault(a)
    ensures Walk(Sweep(m), pc, run + [a], Next(m, mid, a)) && Possible(s, run + [a]) && FaultFree(run + [a])
    ensures After(s, run + [a]) == Apply(After(s, run), a)
  {
    hide Next, Asks, Enabled, Apply, IsFault;
    WalkOne(Sweep(m), pc, run, mid, a);
    AfterOne(s, run, a);
  }

  /** An orphan can be swept. */
  lemma OrphanCanBeSwept(s: Store, k: Key) returns (run: seq<Action>)
    requires k in s && IsOrphan(s, s[k])
    ensures forall hosts | HostNameOf(s[k]) in hosts :: SweepsTo(s, hosts, k, run, Swept(s, k))
  {
    hide IsOrphan, IsListing, Next;
    var m := Cluster(k, s[k]);
    NoLabelsNoOrphan(s, s[k]);
    var services := SomeListing(s, Services(HostNameOf(s[k])));
    var list := Action.List(Services(HostNameOf(s[k])), Ok(services));
    ListReply(m, s, list);
    OneCall(s, m, ServicesList, [], ServicesList, list);
    var delete := Action.Delete(k, true, Ok(()));
    DeleteReply(m, s, delete);
    OneCall(s, m, ServicesList, [list], ClusterDelete, delete);
    run := [list, delete];
    assert [] + [list] == [list] && [list] + [delete] == run;
  }

  /** Nothing is left for the sweeps exactly when nothing is orphaned: in any state where reconciling the
      management clusters without failures changes nothing, each labelled one whose host has a handler has its
      service there or is being deleted already; and conversely. */
  lemma QuietExactlyWhenClean(s: Store, hosts: set<string>)
    requires forall k | k in s && s[k].deleting :: s[k].finalizers != []
    ensures (forall k | k in s && k.kind == ManagementCluster :: SweepKeeps(s, hosts, k)) <==> Clean(s, hosts)
  {
    hide IsOrphan, SweepsTo;
    forall k | k in s
      ensures SweepKeeps(s, hosts, k) <==> (HostNameOf(s[k]) in hosts && IsOrphan(s, s[k]) ==> s[k].deleting)
    {
      KeepsExactly(s, hosts, k);
    }
    if forall k | k in s && k.kind == ManagementCluster :: SweepKeeps(s, hosts, k) {
      forall k | k in s && k.kind == ManagementCluster && HostNameOf(s[k]) in hosts
        ensures IsOrphan(s, s[k]) ==> s[k].deleting
      {
        assert SweepKeeps(s, hosts, k);
      }
    }
  }

  lemma KeepsExactly(s: Store, hosts: set<string>, k: Key)
    requires k in s && (s[k].deleting ==> s[k].finalizers != [])
    ensures SweepKeeps(s, hosts, k) <==> (HostNameOf(s[k]) in hosts && IsOrphan(s, s[k]) ==> s[k].deleting)
  {
    hide IsOrphan, Walk, Possible, FaultFree, Swept;
    SweptChanges(s, k);
    forall run, to | SweepsTo(s, hosts, k, run, to)
      ensures to == if HostNameOf(s[k]) in hosts && IsOrphan(s, s[k]) then Swept(s, k) else s
    {
      SweepExact(s, Cluster(k, s[k]), HostNameOf(s[k]) in hosts, run, None);
    }
    if HostNameOf(s[k]) in hosts && IsOrphan(s, s[k]) {
      var run := OrphanCanBeSwept(s, k);
      assert SweepsTo(s, hosts, k, run, Swept(s, k));
    }
  }
}
