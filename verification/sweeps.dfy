/** Sweeps of stale management clusters among everything else: hosts, informers, workers and outside parties act
    between a sweep's read, its listing of the host's services and its delete, which goes by name. */
module Sweeps {
  import opened Api
  import opened Calls
  import opened HandlerProgram
  import opened Lifecycle
  import opened Safety
  import opened Uniqueness
  import opened Deployment
  import opened Copies
  import opened DeploymentRuns
  import opened Patches
  import Doubles
  import Stale

  /** A reconcile is not sweeping, or is at `pc` for the management cluster `m` as it was read. */
  datatype Sweeping = Resting | Sweeping(m: Stale.Cluster, pc: Stale.Pc)

  datatype SweepWorld = SweepWorld(base: World, sweeps: map<nat, Sweeping>)

  datatype Step =
    | Base(e: Event)
    | Read(sweep: nat, key: Key, hasHandler: bool, reachable: bool)
    | Ask(sweep: nat, a: Action)
    | Leave(sweep: nat)

  function SweepOf(v: SweepWorld, y: nat): Sweeping {
    if y in v.sweeps then v.sweeps[y] else Resting
  }

  /** A service with this UID is on the host now. */
  ghost predicate ThereNow(h: History, host: string, uid: string) {
    exists k: SvcKey :: k.host == host && Hist(h, k) != [] && Now(h, k).Present? && Now(h, k).svc.uid == uid
  }

  /** The host's own answer to the listing of its services: those that are there now, or a failure. */
  ghost predicate HostAnswers(h: History, a: Action) {
    a.List? &&
    match a.items
    case Ok(services) => forall uid :: Stale.HasUidIn(services, uid) <==> ThereNow(h, a.query.cluster, uid)
    case other => other.Failed?
  }

  ghost predicate CanStep(st: Setting, v: SweepWorld, t: Step) {
    match t
    case Base(e) => Can(st.config, v.base, e) && Copying(st, v.base, e)
    case Read(y, key, _, _) =>
      SweepOf(v, y).Resting? && key in v.base.store && key.kind == ManagementCluster && key.cluster == LOCAL
    case Ask(y, a) =>
      && SweepOf(v, y).Sweeping? && Answers(Stale.Asks(SweepOf(v, y).m, SweepOf(v, y).pc), a)
      && (if a.List? then HostAnswers(v.base.hist, a) else Enabled(v.base.store, a))
    case Leave(y) => SweepOf(v, y).Sweeping? && SweepOf(v, y).pc.Finished?
  }

  /** What a sweep's call leaves of the API server: its listing is of the host. */
  ghost function Left(s: Store, a: Action): Store
    requires a.List? || Enabled(s, a)
  {
    if a.List? then s else Apply(s, a)
  }

  ghost function Stepped(st: Setting, v: SweepWorld, t: Step): SweepWorld
    requires CanStep(st, v, t)
  {
    match t
    case Base(e) => v.(base := Do(st.config, v.base, e))
    case Read(y, key, hasHandler, reachable) =>
      var m := Stale.Cluster(key, v.base.store[key]);
      v.(sweeps := v.sweeps[y := Sweeping(m, Stale.Start(m, hasHandler, reachable))])
    case Ask(y, a) =>
      var sweep := SweepOf(v, y);
      SweepWorld(v.base.(store := Left(v.base.store, a)),
                 v.sweeps[y := sweep.(pc := Stale.Next(sweep.m, sweep.pc, a))])
    case Leave(y) => v.(sweeps := v.sweeps[y := Resting])
  }

  // ---- the invariant ----

  ghost predicate SweepIn(st: Setting, h: History, sweep: Sweeping) {
    sweep.Sweeping? && !sweep.pc.Finished? ==>
      var uid := ServiceUidOf(sweep.m.obj);
      && KnownOn(h, HostNameOf(sweep.m.obj), uid) && HasPlace(st, h, uid)
      && HostNameOf(sweep.m.obj) != "" && sweep.m.key.kind == ManagementCluster && sweep.m.key.cluster == LOCAL
      && Tenant(sweep.m.key, uid) in st.management
      && (sweep.pc.ClusterDelete? ==> Over(h, uid))
  }

  ghost predicate SweepsIn(st: Setting, v: SweepWorld) {
    InCopies(st, v.base) && forall y :: SweepIn(st, v.base.hist, SweepOf(v, y))
  }

  /** A UID that was on a host and is not listed there is gone for good. */
  lemma NotListedIsOver(h: History, host: string, uid: string, a: Action)
    requires HistoryOk(h) && KnownOn(h, host, uid) && HostAnswers(h, a) && a.items.Ok? && a.query.cluster == host
    requires !Stale.HasUidIn(a.items.value, uid)
    ensures Over(h, uid)
  {
    var k: SvcKey :| k.host == host && CameFrom(h, k, uid);
    var n :| HasUid(h, k, n, uid);
    assert !ThereNow(h, host, uid);
    forall j
      ensures !LiveAt(h, j, uid)
    {
      assert LiveAt(h, j, uid) ==> HasUid(h, j, |Hist(h, j)| - 1, uid);
    }
  }

  /** Deleting a management cluster is something outside parties may do as far as services are concerned. */
  lemma DeleteCopies(st: Setting, w: World, a: Action)
    requires InSetting(st, w) && a.Delete? && a.key.kind == ManagementCluster && Enabled(w.store, a)
    ensures Copying(st, w, Outside(Apply(w.store, a)))
  {
    hide DataInv, HistoryIn, ClustersIn, TasksApart, SlotIn, HomeFits;
    var after := Apply(w.store, a);
    SameLabelsAfterDelete(w.store, a);
    forall k | k in after
      ensures HomeFits(st, k, after[k])
    {
      assert HomeFits(st, k, w.store[k]);
      HomeOfManagement(st, k, after[k]);
    }
    forall uid, host | HasCarrier(after, uid, host)
      ensures HasCarrier(w.store, uid, host)
    {
      var k :| k in after && Carries(k, after[k], uid, host);
      assert Carries(k, w.store[k], uid, host);
    }
  }

  lemma HomeOfManagement(st: Setting, k: Key, obj: Object)
    ensures k.kind == ManagementCluster ==> HomeFits(st, k, obj)
  {
  }

  lemma SameLabelsAfterDelete(s: Store, a: Action)
    requires a.Delete? && Enabled(s, a)
    ensures forall k | k in Apply(s, a) :: k in s && Apply(s, a)[k].labels == s[k].labels
    ensures forall k | k in Apply(s, a) && k != a.key :: Apply(s, a)[k] == s[k]
  {
  }

  lemma BaseAfterAsk(st: Setting, v: SweepWorld, t: Step)
    requires SweepsIn(st, v) && t.Ask? && CanStep(st, v, t)
    ensures InCopies(st, Stepped(st, v, t).base) && Stepped(st, v, t).base.hist == v.base.hist
  {
    var sweep := SweepOf(v, t.sweep);
    assert SweepIn(st, v.base.hist, sweep);
    hide InSetting, LabelsTrue, KnownOn, HasPlace, Enabled, Apply, Copying;
    if !t.a.List? {
      DeletesRead(sweep, t.a);
      DeleteCopies(st, v.base, t.a);
      var e := Outside(Apply(v.base.store, t.a));
      hide InCopies;
      InCopiesKept(st, v.base, e);
      assert Do(st.config, v.base, e) == Stepped(st, v, t).base;
    }
  }

  lemma DeletesRead(sweep: Sweeping, a: Action)
    requires sweep.Sweeping? && Answers(Stale.Asks(sweep.m, sweep.pc), a) && !a.List?
    ensures a.Delete? && a.key == sweep.m.key && sweep.pc.ClusterDelete?
  {
  }

  lemma SweepAfterAsk(st: Setting, v: SweepWorld, t: Step)
    requires SweepsIn(st, v) && t.Ask? && CanStep(st, v, t)
    ensures SweepIn(st, v.base.hist, SweepOf(Stepped(st, v, t), t.sweep))
  {
    var sweep := SweepOf(v, t.sweep);
    assert SweepIn(st, v.base.hist, sweep);
    hide LabelsTrue, KnownOn, HasPlace, Enabled, Apply, HostAnswers, Over, StoreIn, HistoryIn, TasksApart, SlotIn,
      SlotOk;
    if sweep.pc.ServicesList? && Stale.Next(sweep.m, sweep.pc, t.a).ClusterDelete? {
      NotListedIsOver(v.base.hist, HostNameOf(sweep.m.obj), ServiceUidOf(sweep.m.obj), t.a);
    }
  }

  lemma SweepAfterRead(st: Setting, v: SweepWorld, t: Step)
    requires SweepsIn(st, v) && t.Read? && CanStep(st, v, t)
    ensures SweepIn(st, v.base.hist, SweepOf(Stepped(st, v, t), t.sweep))
  {
    var obj := v.base.store[t.key];
    ManagementIn(st, v.base);
    hide InSetting, KnownOn, HasPlace, CanStep;
    var m := Stale.Cluster(t.key, obj);
    if Stale.Start(m, t.hasHandler, t.reachable).ServicesList? {
      assert Carries(t.key, obj, ServiceUidOf(obj), HostNameOf(obj));
      assert HasCarrier(v.base.store, ServiceUidOf(obj), HostNameOf(obj));
    }
  }

  lemma ManagementIn(st: Setting, w: World)
    requires InSetting(st, w)
    ensures ManagementOk(st, w.store)
  {
    hide DataInv, HistoryIn, HomesOk, ClustersIn, TasksApart, SlotIn;
  }

  lemma SweepStaysIn(st: Setting, w: World, e: Event, sweep: Sweeping)
    requires InSetting(st, w) && Can(st.config, w, e) && SweepIn(st, w.hist, sweep)
    ensures SweepIn(st, Do(st.config, w, e).hist, sweep)
  {
    hide StoreIn, HistoryIn, TasksApart, SlotIn, SlotOk, KnownOn, HasPlace, Over, MayBecome, Next, Asks;
    if e.HostChange? && sweep.Sweeping? && !sweep.pc.Finished? {
      StaysKnown(w.hist, e.at, e.version, HostNameOf(sweep.m.obj), ServiceUidOf(sweep.m.obj));
      StaysPlaced(st, w.hist, e.at, e.version, ServiceUidOf(sweep.m.obj));
      if sweep.pc.ClusterDelete? {
        OverKept(w.hist, e.at, e.version, ServiceUidOf(sweep.m.obj));
      }
    }
  }

  lemma SweepsInKept(st: Setting, v: SweepWorld, t: Step)
    requires SweepsIn(st, v) && CanStep(st, v, t)
    ensures SweepsIn(st, Stepped(st, v, t))
  {
    hide InSetting, InCopies, SweepIn, Can, Do, Copying, HostAnswers, Enabled;
    if !t.Base? {
      assert forall y | y != t.sweep :: SweepOf(Stepped(st, v, t), y) == SweepOf(v, y);
    }
    match t
    case Base(e) =>
      InCopiesKept(st, v.base, e);
      var v' := Stepped(st, v, t);
      forall y
        ensures SweepIn(st, v'.base.hist, SweepOf(v', y))
      {
        assert SweepOf(v', y) == SweepOf(v, y);
        SweepStaysIn(st, v.base, e, SweepOf(v, y)) by { CopiesInSetting(st, v.base); }
      }
    case Read(_, _, _, _) =>
      SweepAfterRead(st, v, t);
      OthersStay(st, v, Stepped(st, v, t), t.sweep);
    case Ask(_, _) =>
      BaseAfterAsk(st, v, t);
      SweepAfterAsk(st, v, t);
    case Leave(_) => RestingIsIn(st, v.base.hist);
  }

  lemma CopiesInSetting(st: Setting, w: World)
    requires InCopies(st, w)
    ensures InSetting(st, w)
  {
    hide InSetting, LabelsTrue;
  }

  lemma OthersStay(st: Setting, v: SweepWorld, v': SweepWorld, y: nat)
    requires SweepsIn(st, v) && v'.base.hist == v.base.hist && SweepIn(st, v.base.hist, SweepOf(v', y))
    requires forall z | z != y :: SweepOf(v', z) == SweepOf(v, z)
    ensures forall z :: SweepIn(st, v'.base.hist, SweepOf(v', z))
  {
    hide SweepIn, InSetting, LabelsTrue;
    forall z
      ensures SweepIn(st, v'.base.hist, SweepOf(v', z))
    {
      assert SweepIn(st, v.base.hist, SweepOf(v, z));
    }
  }

  lemma RestingIsIn(st: Setting, h: History)
    ensures SweepIn(st, h, Resting)
  {
  }

  // ---- runs ----

  /** Nothing is going on, and the labels on clusters are those of services that were there. */
  ghost predicate SweepsStart(st: Setting, v: SweepWorld) {
    StartsCopied(st, v.base) && v.sweeps == map[]
  }

  ghost predicate SweepsRan(st: Setting, v: SweepWorld, run: seq<Step>)
    decreases |run|, 0
  {
    run == [] || (SweepsRan(st, v, run[..|run| - 1]) && CanStep(st, SweepsEnd(st, v, run[..|run| - 1]), run[|run| - 1]))
  }

  ghost function SweepsEnd(st: Setting, v: SweepWorld, run: seq<Step>): SweepWorld
    requires SweepsRan(st, v, run)
    decreases |run|, 1
  {
    if run == [] then v else Stepped(st, SweepsEnd(st, v, run[..|run| - 1]), run[|run| - 1])
  }

  lemma {:induction false} AlwaysSweepsIn(st: Setting, v: SweepWorld, run: seq<Step>)
    requires SweepsIn(st, v) && SweepsRan(st, v, run)
    ensures SweepsIn(st, SweepsEnd(st, v, run))
    decreases |run|
  {
    hide SweepsIn, CanStep, Stepped;
    if run != [] {
      AlwaysSweepsIn(st, v, run[..|run| - 1]);
      SweepsInKept(st, SweepsEnd(st, v, run[..|run| - 1]), run[|run| - 1]);
    }
  }

  lemma StartsSweepsIn(st: Setting, v: SweepWorld)
    requires SweepsStart(st, v)
    ensures SweepsIn(st, v)
  {
    hide StartsCopied, InCopies;
    StartsInCopies(st, v.base);
  }

  /** In every run, whatever happens between its calls: a sweep that comes to its delete has read the management
      cluster of a service that is gone or being deleted, and that stays so however long the delete takes. */
  lemma SweptServiceIsOver(st: Setting, v: SweepWorld, run: seq<Step>, y: nat)
    requires SweepsStart(st, v) && SweepsRan(st, v, run)
    requires var sweep := SweepOf(SweepsEnd(st, v, run), y); sweep.Sweeping? && sweep.pc.ClusterDelete?
    ensures var now := SweepsEnd(st, v, run); Over(now.base.hist, ServiceUidOf(SweepOf(now, y).m.obj))
  {
    hide InSetting, LabelsTrue, SweepsStart, SweepsRan, SweepsEnd, KnownOn, HasPlace, Over;
    StartsSweepsIn(st, v);
    AlwaysSweepsIn(st, v, run);
    assert SweepIn(st, SweepsEnd(st, v, run).base.hist, SweepOf(SweepsEnd(st, v, run), y));
  }

  // ---- deleting by name ----

  /** The step is a sweep's delete that takes effect on a live service's management cluster. */
  ghost predicate SweepsLive(v: SweepWorld, t: Step) {
    && t.Ask? && t.a.Delete? && t.a.took && SweepOf(v, t.sweep).Sweeping? && SweepOf(v, t.sweep).pc.ClusterDelete?
    && t.a.key == SweepOf(v, t.sweep).m.key && t.a.key in v.base.store
    && Live(v.base.hist, ServiceUidOf(v.base.store[t.a.key]))
  }

  /** The name of a management cluster may pass from the cluster of one service to that of another. */
  ghost predicate Passed(st: Setting, key: Key, p: Posted, own: Key, q: Posted, own': Key) {
    && Given(st, p, own) && p.at.host != "" && Given(st, q, own') && p.svc.uid != q.svc.uid
    && key.cluster == LOCAL && key.kind == ManagementCluster
    && Tenant(key, p.svc.uid) in st.management && Tenant(key, q.svc.uid) in st.management
  }

  ghost predicate NamesPass(st: Setting) {
    exists key, p, own, q, own' :: Passed(st, key, p, own, q, own')
  }

  /** The UID a sweep has read is that of a service that could have a cluster on a host with a name. */
  lemma ReadUidPlaced(st: Setting, w: World, host: string, uid: string) returns (p: Posted, own: Key)
    requires InSetting(st, w) && KnownOn(w.hist, host, uid) && HasPlace(st, w.hist, uid)
    ensures Given(st, p, own) && p.svc.uid == uid && p.at.host == host
  {
    hide InSetting, Given, CameFrom;
    own :| GivenIn(st, w.hist, uid, own);
    p :| Given(st, p, own) && p.svc.uid == uid && CameFrom(w.hist, p.at, uid);
    var k: SvcKey :| k.host == host && CameFrom(w.hist, k, uid);
    Doubles.SameKeyForUid(st, w, p.at, k, uid);
  }

  lemma SweepsLiveShares(st: Setting, v: SweepWorld, t: Step)
    requires SweepsIn(st, v) && SweepsLive(v, t)
    ensures NamesPass(st)
  {
    var sweep := SweepOf(v, t.sweep);
    var obj := v.base.store[t.a.key];
    var uid, uid' := ServiceUidOf(sweep.m.obj), ServiceUidOf(obj);
    assert SweepIn(st, v.base.hist, sweep);
    ManagementIn(st, v.base);
    LiveIsKnown(st, v.base, uid');
    hide InSetting, Given, KnownOn, HasPlace, Live, Known, NamesPass;
    assert Carries(t.a.key, obj, uid', HostNameOf(obj));
    assert HasCarrier(v.base.store, uid', HostNameOf(obj));
    var p, own := ReadUidPlaced(st, v.base, HostNameOf(sweep.m.obj), uid);
    var q, own' := ReadUidPlaced(st, v.base, HostNameOf(obj), uid');
    PassedNow(st, t.a.key, p, own, q, own');
  }

  lemma PassedNow(st: Setting, key: Key, p: Posted, own: Key, q: Posted, own': Key)
    requires Passed(st, key, p, own, q, own')
    ensures NamesPass(st)
  {
    hide Passed;
  }

  lemma LiveIsKnown(st: Setting, w: World, uid: string)
    requires InSetting(st, w)
    ensures Live(w.hist, uid) ==> uid != ""
  {
    hide StoreIn, TasksApart, SlotIn, SlotOk, HistoryIn, Live;
    assert Live(w.hist, uid) ==> uid != "" by {
      if Live(w.hist, uid) {
        LiveHasUid(w.hist, uid);
      }
    }
  }

  /** In every run of a deployment in which no management cluster's name passes from one service to another, no
      sweep ever deletes the management cluster of a service that exists without a deletion timestamp. */
  lemma NeverSweepsLiveCluster(st: Setting, v: SweepWorld, run: seq<Step>, t: Step)
    requires SweepsStart(st, v) && SweepsRan(st, v, run)
    requires !NamesPass(st)
    ensures !SweepsLive(SweepsEnd(st, v, run), t)
  {
    hide SweepsIn, SweepsStart, SweepsRan, SweepsEnd, NamesPass, SweepsLive;
    StartsSweepsIn(st, v);
    AlwaysSweepsIn(st, v, run);
    var now := SweepsEnd(st, v, run);
    assert SweepsLive(now, t) ==> NamesPass(st) by {
      if SweepsLive(now, t) {
        SweepsLiveShares(st, now, t);
      }
    }
  }

  // ---- where names pass ----

  const CALM := SweepWorld(NOTHING, map[])

  ghost predicate SweepLeadsBy(st: Setting, v: SweepWorld, run: seq<Step>, to: SweepWorld) {
    SweepsRan(st, v, run) && SweepsEnd(st, v, run) == to
  }

  ghost predicate SweepLeads(st: Setting, to: SweepWorld) {
    InSetting(st, to.base) && exists run :: SweepLeadsBy(st, CALM, run, to)
  }

  lemma SweepLeadsOn(st: Setting, v: SweepWorld, t: Step)
    requires SweepLeads(st, v) && CanStep(st, v, t) && InSetting(st, Stepped(st, v, t).base)
    ensures SweepLeads(st, Stepped(st, v, t))
  {
    hide CanStep, Stepped, InSetting;
    var run :| SweepLeadsBy(st, CALM, run, v);
    assert (run + [t])[..|run|] == run;
    assert SweepLeadsBy(st, CALM, run + [t], Stepped(st, v, t));
  }

  /** A run of everyone but the sweeps is one of all. */
  lemma {:induction false} LiftRun(st: Setting, v: SweepWorld, run: seq<Event>)
    requires SweepLeads(st, v) && Ran(st.config, v.base, run, CopyGuard(st))
    ensures SweepLeads(st, v.(base := End(st.config, v.base, run, CopyGuard(st))))
    decreases |run|
  {
    hide InSetting, Can, Do, KeepsTo, OnlyCopies, SweepLeadsBy;
    if run == [] {
      assert v.(base := v.base) == v;
    } else {
      var before := run[..|run| - 1];
      LiftRun(st, v, before);
      var mid := v.(base := End(st.config, v.base, before, CopyGuard(st)));
      InSettingKept(st, mid.base, run[|run| - 1]);
      SweepLeadsOn(st, mid, Base(run[|run| - 1]));
    }
  }

  lemma Lift(st: Setting, v: SweepWorld, to: World)
    requires SweepLeads(st, v) && Leads(st, v.base, to)
    ensures SweepLeads(st, v.(base := to))
  {
    hide InSetting, SweepLeads;
    var run := LeadsMeansRun(st, v.base, to);
    LiftRun(st, v, run);
  }

  lemma LeadsHere(st: Setting, w: World)
    requires InSetting(st, w)
    ensures Leads(st, w, w)
  {
    hide InSetting;
    assert LeadsBy(st, w, [], w);
  }

  lemma CalmStarts(st: Setting)
    ensures SweepsStart(st, CALM) && SweepLeads(st, CALM)
  {
    NothingStarts(st);
    NothingCopied(st);
    hide StartsCopied, InSetting, Leads;
    LeadsInSetting(st, NOTHING);
    assert SweepLeadsBy(st, CALM, [], CALM);
  }

  lemma LeadsInSetting(st: Setting, w: World)
    requires Leads(st, NOTHING, w)
    ensures InSetting(st, w)
  {
    hide InSetting;
  }

  function ReadCluster(st: Setting, p: Posted, spot: Spot, key: Key): Stale.Cluster {
    Stale.Cluster(key, MgmtOf(st, p, spot))
  }

  lemma ReadStarts(st: Setting, p: Posted, spot: Spot, key: Key)
    requires p.svc.uid != "" && p.at.host != ""
    ensures Stale.Start(ReadCluster(st, p, spot, key), true, true) == Stale.ServicesList
    ensures HostNameOf(MgmtOf(st, p, spot)) == p.at.host && ServiceUidOf(MgmtOf(st, p, spot)) == p.svc.uid
  {
    var any := Key(LOCAL, ProvisioningCluster, "", "");
    ClusterIsFor(st, map[], p, spot, any, any, "");
    MgmtIsFor(st, p, spot);
    assert ClusterOf(st, p, spot) == MgmtOf(st, p, spot);
  }

  /** From nothing: a service has its provisioning cluster, and Rancher has made the management cluster. */
  lemma BothClusters(st: Setting, p: Posted, spot: Spot, own: Key, key: Key) returns (w: World)
    requires FitsAt(st, p, spot, own) && key.kind == ManagementCluster && Tenant(key, p.svc.uid) in st.management
    ensures Leads(st, NOTHING, w) && w.hist == Grown(map[], p.at, Present(p.svc)) && forall y :: SlotOf(w, y).Idle?
    ensures OnlyProvisioning(w.store, own) && OnlyManagement(st, w.store, p, spot, key)
  {
    FitsPlaceable(st, p, spot, own);
    hide Leads, FitsAt, Placeable, There, MayLie, ClusterOf, MgmtOf, IsClusterFor, Grown, SlotOf, OnlyCluster,
      OnlyProvisioning, OnlyManagement;
    var w1 := FirstComes(st, p, spot, own);
    w := Imported(st, NOTHING, w1, p, spot, own, key);
    SameSlots(w1, w);
    BothNow(st, w1.store, p, spot, own, key);
  }

  /** A sweep begins by reading the management cluster that is there under the name. */
  lemma SweepReads(st: Setting, v: SweepWorld, p: Posted, spot: Spot, key: Key) returns (to: SweepWorld)
    requires SweepLeads(st, v) && SweepOf(v, 0).Resting? && p.svc.uid != "" && p.at.host != ""
    requires key.cluster == LOCAL && key.kind == ManagementCluster && OnlyManagement(st, v.base.store, p, spot, key)
    ensures SweepLeads(st, to) && to.base == v.base
    ensures SweepOf(to, 0) == Sweeping(ReadCluster(st, p, spot, key), Stale.ServicesList)
  {
    ReadStarts(st, p, spot, key);
    SweepLeadsIn(st, v);
    hide SweepLeads, InSetting, MgmtOf, Stale.Start;
    var t := Read(0, key, true, true);
    to := Stepped(st, v, t);
    SweepLeadsOn(st, v, t);
  }

  /** All of a host's services are gone: its listing is empty. */
  lemma NoneListed(st: Setting, p: Posted, spot: Spot, key: Key, a: Action)
    requires p.svc.uid != "" && p.at.host != "" && a == Action.List(Stale.Services(p.at.host), Ok([]))
    ensures HostAnswers(Grown(Grown(map[], p.at, Present(p.svc)), p.at, Absent), a)
    ensures Answers(Stale.Asks(ReadCluster(st, p, spot, key), Stale.ServicesList), a)
    ensures Stale.Next(ReadCluster(st, p, spot, key), Stale.ServicesList, a) == Stale.ClusterDelete
  {
    ReadStarts(st, p, spot, key);
    hide MgmtOf;
    var h := Grown(Grown(map[], p.at, Present(p.svc)), p.at, Absent);
    assert forall k :: Hist(h, k) != [] && Now(h, k) == Absent;
  }

  /** The service goes, and the sweep finds it missing. */
  lemma SweepMisses(st: Setting, v: SweepWorld, p: Posted, spot: Spot, key: Key) returns (to: SweepWorld)
    requires SweepLeads(st, v) && p.svc.uid != "" && p.at.host != ""
    requires v.base.hist == Grown(map[], p.at, Present(p.svc))
    requires SweepOf(v, 0) == Sweeping(ReadCluster(st, p, spot, key), Stale.ServicesList)
    ensures SweepLeads(st, to) && to.base.hist == Grown(Grown(map[], p.at, Present(p.svc)), p.at, Absent)
    ensures to.base.store == v.base.store && to.base.slots == v.base.slots
    ensures SweepOf(to, 0) == Sweeping(ReadCluster(st, p, spot, key), Stale.ClusterDelete)
  {
    var a := Action.List(Stale.Services(p.at.host), Ok([]));
    NoneListed(st, p, spot, key, a);
    assert Now(Grown(map[], p.at, Present(p.svc)), p.at).Present?;
    LeadsHere(st, v.base) by { SweepLeadsIn(st, v); }
    hide Leads, SweepLeads, InSetting, Grown, ReadCluster, HostAnswers, Stale.Next, Stale.Asks, Hist;
    var w := Vanish(st, v.base, v.base, p.at);
    Lift(st, v, w);
    to := SweepHears(st, v.(base := w), Ask(0, a));
  }

  /** A sweep's call that leaves the API server as it is. */
  lemma SweepHears(st: Setting, v: SweepWorld, t: Step) returns (to: SweepWorld)
    requires SweepLeads(st, v) && t.Ask? && t.a.List? && CanStep(st, v, t)
    ensures SweepLeads(st, to) && to.base == v.base
    ensures SweepOf(to, t.sweep) ==
      SweepOf(v, t.sweep).(pc := Stale.Next(SweepOf(v, t.sweep).m, SweepOf(v, t.sweep).pc, t.a))
  {
    SweepLeadsIn(st, v);
    hide InSetting, SweepLeads, HostAnswers, Stale.Next, Stale.Asks;
    to := Stepped(st, v, t);
    assert to.base == v.base;
    SweepLeadsOn(st, v, t);
  }

  /** From nothing: a service has had its clusters and has gone, and a sweep is about to delete by name. */
  lemma SweepComesToDelete(st: Setting, p: Posted, spot: Spot, own: Key, key: Key) returns (v: SweepWorld)
    requires FitsAt(st, p, spot, own) && p.at.host != "" && key.cluster == LOCAL && key.kind == ManagementCluster
    requires Tenant(key, p.svc.uid) in st.management
    ensures SweepLeads(st, v) && v.base.hist == Grown(Grown(map[], p.at, Present(p.svc)), p.at, Absent)
    ensures OnlyProvisioning(v.base.store, own) && forall y :: SlotOf(v.base, y).Idle?
    ensures SweepOf(v, 0) == Sweeping(ReadCluster(st, p, spot, key), Stale.ClusterDelete)
  {
    CalmStarts(st);
    FitsPlaceable(st, p, spot, own);
    hide Leads, SweepLeads, FitsAt, Placeable, There, MayLie, Grown, SweepsStart, OnlyProvisioning, OnlyManagement, SlotOf;
    var w := BothClusters(st, p, spot, own, key);
    Lift(st, CALM, w);
    var v1 := SweepReads(st, CALM.(base := w), p, spot, key);
    v := SweepMisses(st, v1, p, spot, key);
    SameSlots(w, v.base);
  }

  /** For all settings in which a management cluster's name may pass from one service to another: a run from nothing
      to a sweep's delete of the other's management cluster, while that service is there. */
  lemma PassedNameIsSwept(st: Setting, key: Key, p: Posted, own: Key, q: Posted, own': Key)
    returns (v: SweepWorld, t: Step)
    requires Passed(st, key, p, own, q, own')
    ensures SweepLeads(st, v) && CanStep(st, v, t) && SweepsLive(v, t)
  {
    var spot := GivenFits(st, p, own);
    var spot' := GivenFits(st, q, own');
    MgmtIsFor(st, q, spot');
    hide Leads, SweepLeads, Given, FitsAt, InSetting, Grown, ReadCluster, MgmtOf, LiveAt, OnlyProvisioning, SlotOf;
    var v1 := SweepComesToDelete(st, p, spot, own, key);
    LeadsHere(st, v1.base) by { SweepLeadsIn(st, v1); }
    var w := TakesOver(st, v1.base, v1.base, 0, p, own, q, spot', own', key);
    Lift(st, v1, w);
    v := v1.(base := w);
    t := Ask(0, Action.Delete(key, true, Ok(())));
    SweepsNow(st, v, p, spot, key, q, t);
  }

  lemma SweepLeadsIn(st: Setting, v: SweepWorld)
    requires SweepLeads(st, v)
    ensures InSetting(st, v.base)
  {
    hide InSetting;
  }

  lemma SweepsNow(st: Setting, v: SweepWorld, p: Posted, spot: Spot, key: Key, q: Posted, t: Step)
    requires SweepOf(v, 0) == Sweeping(ReadCluster(st, p, spot, key), Stale.ClusterDelete)
    requires key in v.base.store && ServiceUidOf(v.base.store[key]) == q.svc.uid && LiveAt(v.base.hist, q.at, q.svc.uid)
    requires t == Ask(0, Action.Delete(key, true, Ok(())))
    ensures CanStep(st, v, t) && SweepsLive(v, t)
  {
    hide LiveAt, MgmtOf;
  }

  // ---- the exact condition ----

  /** Some run, from nothing, comes to a sweep's delete of a live service's management cluster. */
  ghost predicate CanSweepLive(st: Setting) {
    exists run, t :: SweepsAfter(st, run, t)
  }

  ghost predicate SweepsAfter(st: Setting, run: seq<Step>, t: Step) {
    SweepsRan(st, CALM, run) && CanStep(st, SweepsEnd(st, CALM, run), t) && SweepsLive(SweepsEnd(st, CALM, run), t)
  }

  /** A sweep can come to delete the management cluster of a live service if and only if the name of a management
      cluster may pass from one service to another, both with a cluster to get it from. */
  lemma SweepsLiveExactly(st: Setting)
    ensures CanSweepLive(st) <==> NamesPass(st)
  {
    CalmStarts(st);
    hide SweepLeads, Given, CanStep, SweepsRan, SweepsEnd, SweepsIn, SweepsStart, SweepsLive, InSetting;
    StartsSweepsIn(st, CALM);
    if run, t :| SweepsAfter(st, run, t) {
      AlwaysSweepsIn(st, CALM, run);
      SweepsLiveShares(st, SweepsEnd(st, CALM, run), t);
    }
    if NamesPass(st) {
      var key, p, own, q, own' :| Passed(st, key, p, own, q, own');
      var v, t := PassedNameIsSwept(st, key, p, own, q, own');
      var run := SweepLeadsMeansRun(st, v);
      assert SweepsAfter(st, run, t);
    }
  }

  lemma SweepLeadsMeansRun(st: Setting, v: SweepWorld) returns (run: seq<Step>)
    requires SweepLeads(st, v)
    ensures SweepsRan(st, CALM, run) && SweepsEnd(st, CALM, run) == v
  {
    hide InSetting;
    run :| SweepLeadsBy(st, CALM, run, v);
  }
}
