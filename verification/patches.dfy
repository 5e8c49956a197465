/** Whose management cluster a patch reaches: the patch goes by the name that was listed. */
module Patches {
  import opened Api
  import opened Calls
  import opened Constants
  import opened HandlerProgram
  import opened HandlerFacts
  import opened Lifecycle
  import opened Safety
  import opened Uniqueness
  import opened Deployment
  import opened Copies
  import opened DeploymentRuns

  /** The worker is about to patch a management cluster that carries another service's UID by now. */
  ghost predicate OffTarget(w: World, x: nat) {
    && SlotOf(w, x).Working? && SlotOf(w, x).pc.MgmtPatch?
    && SlotOf(w, x).pc.key in w.store && ServiceUidOf(w.store[SlotOf(w, x).pc.key]) != SlotOf(w, x).pc.svc.uid
  }

  /** The event is a worker's patch that takes effect on another service's management cluster. */
  ghost predicate Strays(w: World, e: Event) {
    e.Call? && e.a.Patch? && e.a.took && OffTarget(w, e.worker) && e.a.key == SlotOf(w, e.worker).pc.key
  }

  /** Every name of a management cluster only ever belongs to one service. */
  ghost predicate OneTenant(st: Setting) {
    forall key, uid, uid' :: Shared(st, key, uid, uid') ==> uid == uid'
  }

  /** The name may come to carry the first UID, and the second or none; the UIDs are of services that can have a
      cluster to copy them from. */
  ghost predicate Shared(st: Setting, key: Key, uid: string, uid': string) {
    && key.cluster == LOCAL && key.kind == ManagementCluster
    && Tenant(key, uid) in st.management && Tenant(key, uid') in st.management
    && (exists k :: MayGet(st, uid, k)) && (uid' == "" || exists k :: MayGet(st, uid', k))
  }

  lemma PatchAtMgmtPatch(h: Host, pc: Pc, a: Action)
    requires Answers(Asks(h, pc), a) && a.Patch?
    ensures pc.MgmtPatch? && a.key == pc.key
  {
  }

  // ---- where names are not reused ----

  lemma PlacedMayGet(st: Setting, h: History, uid: string)
    requires HasPlace(st, h, uid)
    ensures exists k :: MayGet(st, uid, k)
  {
    hide Given;
    var k :| GivenIn(st, h, uid, k);
    assert MayGet(st, uid, k);
  }

  lemma OffTargetShares(st: Setting, w: World, x: nat)
    requires InCopies(st, w) && OffTarget(w, x)
    ensures var slot := SlotOf(w, x); Shared(st, slot.pc.key, slot.pc.svc.uid, ServiceUidOf(w.store[slot.pc.key]))
  {
    hide HistoryIn, HomesOk, ClustersIn, TasksApart, Inv, KeepsLookups, MayGet, HasPlace, KnownOn;
    var slot := SlotOf(w, x);
    assert SlotOk(st.config, w.hist, slot) && SlotIn(st, w.hist, slot);
    PlacedMayGet(st, w.hist, slot.pc.svc.uid);
    var obj := w.store[slot.pc.key];
    if ServiceUidOf(obj) != "" {
      assert Carries(slot.pc.key, obj, ServiceUidOf(obj), HostNameOf(obj));
      assert HasCarrier(w.store, ServiceUidOf(obj), HostNameOf(obj));
      PlacedMayGet(st, w.hist, ServiceUidOf(obj));
    }
  }

  /** In every run of a deployment in which no management cluster's name passes from one service to another, the
      management cluster that a worker's patch reaches carries the UID of the service the worker is working for. */
  lemma PatchesReachOwnCluster(st: Setting, w: World, run: seq<Event>, e: Event)
    requires StartsCopied(st, w) && Ran(st.config, w, run, CopyGuard(st)) && OneTenant(st)
    requires Can(st.config, End(st.config, w, run, CopyGuard(st)), e) && e.Call? && e.a.Patch? && e.a.took
    ensures var now := End(st.config, w, run, CopyGuard(st));
      var slot := SlotOf(now, e.worker);
      slot.cached.Found? && e.a.key in now.store && ServiceUidOf(now.store[e.a.key]) == slot.cached.svc.uid
  {
    hide StartsCopied, Ran, End, InCopies, OneTenant, OffTarget;
    StartsInCopies(st, w);
    AlwaysInCopies(st, w, run);
    var now := End(st.config, w, run, CopyGuard(st));
    PatchOnTarget(st, now, e);
  }

  lemma PatchOnTarget(st: Setting, w: World, e: Event)
    requires InCopies(st, w) && Can(st.config, w, e) && e.Call? && e.a.Patch? && e.a.took && OneTenant(st)
    ensures var slot := SlotOf(w, e.worker);
      slot.cached.Found? && e.a.key in w.store && ServiceUidOf(w.store[e.a.key]) == slot.cached.svc.uid
  {
    var slot := SlotOf(w, e.worker);
    PatchAtMgmtPatch(HostOf(st.config, slot), slot.pc, e.a);
    assert SlotOk(st.config, w.hist, slot);
    hide HistoryIn, StoreIn, TasksApart, Inv, KeepsLookups, Asks, Next, SlotIn, Shared, LabelsTrue;
    assert OffTarget(w, e.worker) ==> !OneTenant(st) by {
      if OffTarget(w, e.worker) {
        OffTargetShares(st, w, e.worker);
      }
    }
  }

  // ---- where they are ----

  /** The management cluster that Rancher makes for the service's cluster. */
  function MgmtOf(st: Setting, p: Posted, spot: Spot): Object {
    Object("", LabelsOf(st, p, spot), [], false, map[])
  }

  lemma MgmtIsFor(st: Setting, p: Posted, spot: Spot)
    ensures ServiceUidOf(MgmtOf(st, p, spot)) == p.svc.uid && LABEL_SERVICE_UID in LabelsOf(st, p, spot)
    ensures !MgmtOf(st, p, spot).deleting
  {
    LookupsDistinct();
  }

  /** Rancher or someone else writes a management cluster under a name that may carry its UID, with the labels of a
      provisioning cluster or without a service UID. */
  lemma Written(st: Setting, w0: World, w: World, key: Key, obj: Object) returns (to: World)
    requires Leads(st, w0, w) && key.kind == ManagementCluster && Tenant(key, ServiceUidOf(obj)) in st.management
    requires CopiedOrBare(w.store, obj)
    ensures Leads(st, w0, to) && to == w.(store := w.store[key := obj])
  {
    WrittenCopies(w.store, key, obj);
    hide DataInv, HistoryIn, ClustersIn, TasksApart, SlotIn, LeadsBy, OnlyCopies, CopiedOrBare;
    to := LeadsOn(st, w0, w, Outside(w.store[key := obj]));
  }

  ghost predicate CopiedOrBare(s: Store, obj: Object) {
    ServiceUidOf(obj) == "" || exists k: Key :: k in s && k.kind == ProvisioningCluster && s[k].labels == obj.labels
  }

  lemma WrittenCopies(s: Store, key: Key, obj: Object)
    requires CopiedOrBare(s, obj)
    ensures OnlyCopies(s, s[key := obj])
  {
    forall uid, host | HasCarrier(s[key := obj], uid, host)
      ensures HasCarrier(s, uid, host)
    {
      var k :| k in s[key := obj] && Carries(k, s[key := obj][k], uid, host);
      if k == key {
        var copied: Key :| copied in s && copied.kind == ProvisioningCluster && s[copied].labels == obj.labels;
        assert Carries(copied, s[copied], uid, host);
      } else {
        assert k in s && Carries(k, s[k], uid, host);
      }
    }
  }

  /** Rancher makes the management cluster from the service's provisioning cluster. */
  lemma Imported(st: Setting, w0: World, w: World, p: Posted, spot: Spot, own: Key, key: Key) returns (to: World)
    requires Leads(st, w0, w) && own in w.store && own.kind == ProvisioningCluster
    requires w.store[own] == ClusterOf(st, p, spot)
    requires key.kind == ManagementCluster && Tenant(key, p.svc.uid) in st.management
    ensures Leads(st, w0, to) && to == w.(store := w.store[key := MgmtOf(st, p, spot)])
  {
    MgmtIsFor(st, p, spot);
    hide Leads;
    to := Written(st, w0, w, key, MgmtOf(st, p, spot));
  }

  /** After the first service has gone its cluster is removed, another service gets one, and its management cluster
      comes to have the name `key`. */
  lemma TakesOver(st: Setting, w0: World, w: World, x: nat, p: Posted, own: Key, q: Posted, spot: Spot, own': Key, key: Key)
    returns (to: World)
    requires Leads(st, w0, w) && w.hist == Grown(Grown(map[], p.at, Present(p.svc)), p.at, Absent)
    requires OnlyProvisioning(w.store, own) && own.kind == ProvisioningCluster
    requires FitsAt(st, q, spot, own') && q.svc.uid != p.svc.uid
    requires SlotOf(w, x).Idle? && forall y :: SlotOf(w, y).Idle? || SlotOf(w, y).task != Task(q.at, q.svc.uid)
    requires key.kind == ManagementCluster && Tenant(key, q.svc.uid) in st.management
    ensures Leads(st, w0, to) && LiveAt(to.hist, q.at, q.svc.uid)
    ensures key in to.store && to.store[key] == MgmtOf(st, q, spot)
    ensures forall y | y != x :: SlotOf(to, y) == SlotOf(w, y)
  {
    FitsPlaceable(st, q, spot, own');
    AnotherMayCome(p, q);
    NoneLeft(w.store, own);
    hide Leads, FitsAt, Placeable, There, MayLie, MayBecome, Grown, LiveAt, SlotOf, IsClusterFor, OnlyProvisioning, MgmtOf,
      ClusterOf;
    var w1 := Removed(st, w0, w, own);
    SameSlots(w, w1);
    var w2 := GetsCluster(st, w0, w1, x, q, spot, own');
    to := Imported(st, w0, w2, q, spot, own', key);
    SameSlots(w2, to);
  }

  ghost predicate OnlyProvisioning(s: Store, own: Key) {
    forall k: Key | k in s && k.kind == ProvisioningCluster :: k == own
  }

  lemma NoneLeft(s: Store, own: Key)
    requires OnlyProvisioning(s, own)
    ensures forall k: Key | k.kind == ProvisioningCluster :: k !in s - {own}
    ensures forall k, uid :: !IsClusterFor(s - {own}, k, uid)
  {
  }

  lemma MgmtReply(st: Setting, s: Store, p: Posted, spot: Spot, key: Key, a: Action)
    requires key.cluster == LOCAL && key.kind == ManagementCluster && OnlyManagement(st, s, p, spot, key)
    requires a == Action.List(ByServiceUid(ManagementCluster, p.svc.uid), Ok([Entry(key, s[key])]))
    ensures Enabled(s, a) && Answers(Asks(HandlerOf(st, p), MgmtList(p.svc, false)), a) && Apply(s, a) == s
    ensures Next(HandlerOf(st, p), MgmtList(p.svc, false), a)
      == MgmtPatch(p.svc, false, key, MgmtChange(HandlerOf(st, p), p.svc, false, s[key]))
  {
    MgmtIsFor(st, p, spot);
    hide LabelsOf, MgmtChange;
  }

  /** The worker is about to patch the cluster `key` for the UID. */
  predicate Patching(w: World, uid: string, key: Key) {
    SlotOf(w, 0).Working? && SlotOf(w, 0).pc.MgmtPatch? && SlotOf(w, 0).pc.key == key && SlotOf(w, 0).pc.svc.uid == uid
  }

  /** From nothing: a worker has given the first service its cluster, and Rancher has made its management cluster. */
  lemma ComesToList(st: Setting, p: Posted, spot: Spot, own: Key, key: Key) returns (w: World)
    requires FitsAt(st, p, spot, own) && key.kind == ManagementCluster && Tenant(key, p.svc.uid) in st.management
    ensures Leads(st, NOTHING, w) && w.hist == Grown(map[], p.at, Present(p.svc))
    ensures SlotOf(w, 0) == Working(Task(p.at, p.svc.uid), Found(p.svc), MgmtList(p.svc, false))
    ensures forall y | y != 0 :: SlotOf(w, y).Idle?
    ensures OnlyProvisioning(w.store, own) && OnlyManagement(st, w.store, p, spot, key)
  {
    FitsPlaceable(st, p, spot, own);
    hide Leads, FitsAt, Placeable, There, MayLie, ClusterOf, MgmtOf, Grown, ClusterAdded, IsClusterFor, SlotOf,
      OnlyCluster, OnlyProvisioning, OnlyManagement;
    var w1 := FirstGets(st, p, spot, own);
    OnlyClusterAdded(st, w1.store, p, spot, own);
    w := Imported(st, NOTHING, w1, p, spot, own, key);
    SameSlots(w1, w);
    BothNow(st, w1.store, p, spot, own, key);
  }

  /** The store's one management cluster is the service's. */
  ghost predicate OnlyManagement(st: Setting, s: Store, p: Posted, spot: Spot, key: Key) {
    key in s && s[key] == MgmtOf(st, p, spot) && forall k: Key | k in s && k.kind == ManagementCluster :: k == key
  }

  lemma BothNow(st: Setting, s: Store, p: Posted, spot: Spot, own: Key, key: Key)
    requires OnlyCluster(s, own) && key.kind == ManagementCluster
    ensures OnlyProvisioning(s[key := MgmtOf(st, p, spot)], own)
    ensures OnlyManagement(st, s[key := MgmtOf(st, p, spot)], p, spot, key)
  {
    hide MgmtOf;
  }

  /** From there the worker hears of the management cluster and is about to patch it. */
  lemma ComesToPatch(st: Setting, p: Posted, spot: Spot, own: Key, key: Key) returns (w: World)
    requires FitsAt(st, p, spot, own) && key.cluster == LOCAL && key.kind == ManagementCluster
    requires Tenant(key, p.svc.uid) in st.management
    ensures Leads(st, NOTHING, w) && w.hist == Grown(map[], p.at, Present(p.svc)) && Patching(w, p.svc.uid, key)
    ensures SlotOf(w, 0).task == Task(p.at, p.svc.uid) && forall y | y != 0 :: SlotOf(w, y).Idle?
    ensures OnlyProvisioning(w.store, own)
  {
    hide Leads, FitsAt, MgmtOf, Grown, MgmtChange, OnlyProvisioning, SlotOf, Next, Asks, Apply, Enabled, Answers;
    var w1 := ComesToList(st, p, spot, own, key);
    var list := Action.List(ByServiceUid(ManagementCluster, p.svc.uid), Ok([Entry(key, MgmtOf(st, p, spot))]));
    MgmtReply(st, w1.store, p, spot, key, list);
    w := ListsIt(st, w1, p, list);
  }

  /** The worker hears of its management cluster and is about to patch it. */
  lemma ListsIt(st: Setting, w: World, p: Posted, list: Action) returns (to: World)
    requires Leads(st, NOTHING, w) && SlotOf(w, 0).Working? && SlotOf(w, 0).task.at == p.at
    requires SlotOf(w, 0).pc == MgmtList(p.svc, false) && Enabled(w.store, list)
    requires Answers(Asks(HandlerOf(st, p), MgmtList(p.svc, false)), list)
    ensures Leads(st, NOTHING, to) && to == w.(slots := to.slots, store := Apply(w.store, list))
    ensures SlotOf(to, 0) == SlotOf(w, 0).(pc := Next(HandlerOf(st, p), MgmtList(p.svc, false), list))
    ensures forall y | y != 0 :: SlotOf(to, y) == SlotOf(w, y)
  {
    hide Leads, Enabled, Apply, Next, Answers, Asks;
    to := MakesCall(st, NOTHING, w, 0, list);
  }

  /** For all settings in which a management cluster's name may pass from a service to another: a run from nothing
      to a patch that writes the one's labels and finalizers to the other's cluster, which Rancher made from that
      service's own provisioning cluster. */
  lemma ReusedNameStrays(st: Setting, p: Posted, own: Key, q: Posted, own': Key, key: Key) returns (w: World, e: Event)
    requires Given(st, p, own) && Given(st, q, own') && p.svc.uid != q.svc.uid
    requires key.cluster == LOCAL && key.kind == ManagementCluster
    requires Tenant(key, p.svc.uid) in st.management && Tenant(key, q.svc.uid) in st.management
    ensures Leads(st, NOTHING, w) && Can(st.config, w, e) && Strays(w, e)
  {
    var spot := GivenFits(st, p, own);
    var spot' := GivenFits(st, q, own');
    FitsPlaceable(st, p, spot, own);
    MgmtIsFor(st, q, spot');
    assert Now(Grown(map[], p.at, Present(p.svc)), p.at).Present?;
    hide Leads, Given, FitsAt, Placeable, There, MayLie, MgmtOf, Grown, OnlyProvisioning, SlotOf, Hist, LiveAt;
    var w1 := ComesToPatch(st, p, spot, own, key);
    var w2 := Vanish(st, NOTHING, w1, p.at);
    SameSlots(w1, w2);
    w := TakesOver(st, NOTHING, w2, 1, p, own, q, spot', own', key);
    e := Call(0, Action.Patch(key, SlotOf(w, 0).pc.change, true, Ok(())));
    PatchNow(st, w, e);
  }

  /** And where it may pass to a cluster that is no service's. */
  lemma FreedNameStrays(st: Setting, p: Posted, own: Key, key: Key) returns (w: World, e: Event)
    requires Given(st, p, own) && key.cluster == LOCAL && key.kind == ManagementCluster
    requires Tenant(key, p.svc.uid) in st.management && Tenant(key, "") in st.management
    ensures Leads(st, NOTHING, w) && Can(st.config, w, e) && Strays(w, e)
  {
    var spot := GivenFits(st, p, own);
    FitsPlaceable(st, p, spot, own);
    hide Leads, Given, FitsAt, Placeable, There, MayLie, Grown, OnlyProvisioning, SlotOf;
    var w1 := ComesToPatch(st, p, spot, own, key);
    w := Written(st, NOTHING, w1, key, Object("", map[], [], false, map[]));
    SameSlots(w1, w);
    e := Call(0, Action.Patch(key, SlotOf(w, 0).pc.change, true, Ok(())));
    PatchNow(st, w, e);
  }

  lemma PatchNow(st: Setting, w: World, e: Event)
    requires SlotOf(w, 0).Working? && SlotOf(w, 0).pc.MgmtPatch? && SlotOf(w, 0).pc.key in w.store
    requires ServiceUidOf(w.store[SlotOf(w, 0).pc.key]) != SlotOf(w, 0).pc.svc.uid
    requires !w.store[SlotOf(w, 0).pc.key].deleting
    requires e == Call(0, Action.Patch(SlotOf(w, 0).pc.key, SlotOf(w, 0).pc.change, true, Ok(())))
    ensures Can(st.config, w, e) && Strays(w, e)
  {
  }

  // ---- the exact condition ----

  /** Some run of the deployment, from nothing, comes to a patch that strays. */
  ghost predicate CanStray(st: Setting) {
    exists run, e :: StraysAfter(st, run, e)
  }

  ghost predicate StraysAfter(st: Setting, run: seq<Event>, e: Event) {
    && Ran(st.config, NOTHING, run, CopyGuard(st))
    && Can(st.config, End(st.config, NOTHING, run, CopyGuard(st)), e)
    && Strays(End(st.config, NOTHING, run, CopyGuard(st)), e)
  }

  /** A patch can come to reach another service's management cluster if and only if the name of a management cluster
      can pass from a service that can have a cluster to another such service, or to a cluster of none. */
  lemma StraysExactly(st: Setting)
    ensures CanStray(st) <==> !OneTenant(st)
  {
    hide Given, Can, Ran, End, InCopies, StartsCopied, Strays, Shared;
    NothingCopied(st);
    StartsInCopies(st, NOTHING);
    if run, e :| StraysAfter(st, run, e) {
      AlwaysInCopies(st, NOTHING, run);
      StraySharesName(st, End(st.config, NOTHING, run, CopyGuard(st)), e);
    }
    if !OneTenant(st) {
      var key, uid, uid' :| Shared(st, key, uid, uid') && uid != uid';
      SharedStrays(st, key, uid, uid');
    }
  }

  lemma NothingCopied(st: Setting)
    ensures StartsCopied(st, NOTHING)
  {
    NothingStarts(st);
    hide StartsIn, Leads;
    assert forall uid, host :: !HasCarrier(NOTHING.store, uid, host);
  }

  lemma SharedStrays(st: Setting, key: Key, uid: string, uid': string)
    requires Shared(st, key, uid, uid') && uid != uid'
    ensures CanStray(st)
  {
    hide Given, Can, Ran, End, Strays, Leads;
    var own :| MayGet(st, uid, own);
    var p :| Given(st, p, own) && p.svc.uid == uid;
    var w, e;
    if uid' == "" {
      w, e := FreedNameStrays(st, p, own, key);
    } else {
      var own' :| MayGet(st, uid', own');
      var q :| Given(st, q, own') && q.svc.uid == uid';
      w, e := ReusedNameStrays(st, p, own, q, own', key);
    }
    var run := LeadsMeansRun(st, NOTHING, w);
    assert StraysAfter(st, run, e);
  }

  lemma StraySharesName(st: Setting, w: World, e: Event)
    requires InCopies(st, w) && Strays(w, e)
    ensures !OneTenant(st)
  {
    hide InCopies, Shared;
    OffTargetShares(st, w, e.worker);
  }
}
