/** Where the labels of services on clusters come from: the operator puts them on provisioning clusters, and others,
    as Rancher does, only copy them from cluster to cluster. So a cluster that carries a service's UID carries it
    with the host the service was on, and the service is one that can have a cluster. */
module Copies {
  import opened Api
  import opened Calls
  import opened Constants
  import opened Naming
  import opened HandlerProgram
  import opened HandlerFacts
  import opened Lifecycle
  import opened Safety
  import opened Uniqueness
  import opened Deployment

  /** A provisioning or management cluster labelled with a service UID, and with this host or none. */
  predicate Carries(k: Key, obj: Object, uid: string, host: string) {
    && (k.kind == ProvisioningCluster || k.kind == ManagementCluster) && uid != ""
    && ServiceUidOf(obj) == uid && HostNameOf(obj) == host
  }

  ghost predicate HasCarrier(s: Store, uid: string, host: string) {
    exists k :: k in s && Carries(k, s[k], uid, host)
  }

  /** Every cluster with a service UID afterwards has its labels of service and host from one that had them. */
  ghost predicate OnlyCopies(s: Store, after: Store) {
    forall uid, host :: HasCarrier(after, uid, host) ==> HasCarrier(s, uid, host)
  }

  ghost predicate Copying(st: Setting, w: World, e: Event) {
    KeepsTo(st, w, e) && (e.Outside? ==> OnlyCopies(w.store, e.after))
  }

  ghost function CopyGuard(st: Setting): (World, Event) -> bool {
    (w, e) => Copying(st, w, e)
  }

  /** A run of those who only copy is one of those who keep to the setting. */
  lemma {:induction false} CopyingRan(st: Setting, w: World, run: seq<Event>)
    requires Ran(st.config, w, run, CopyGuard(st))
    ensures Ran(st.config, w, run, Guard(st))
    ensures End(st.config, w, run, Guard(st)) == End(st.config, w, run, CopyGuard(st))
    decreases |run|
  {
    hide Can, Do, KeepsTo, OnlyCopies;
    if run != [] {
      CopyingRan(st, w, run[..|run| - 1]);
    }
  }

  /** The UID was there on the host. */
  ghost predicate KnownOn(h: History, host: string, uid: string) {
    exists k: SvcKey :: k.host == host && CameFrom(h, k, uid)
  }

  /** Clusters carry the labels of services that can have clusters and were there, with the right host. */
  ghost predicate LabelsTrue(st: Setting, h: History, s: Store) {
    forall uid, host | HasCarrier(s, uid, host) :: KnownOn(h, host, uid) && HasPlace(st, h, uid)
  }

  /** The setting's invariant, and the labels' truth. */
  ghost predicate InCopies(st: Setting, w: World) {
    InSetting(st, w) && LabelsTrue(st, w.hist, w.store)
  }

  ghost predicate StartsCopied(st: Setting, w: World) {
    StartsIn(st, w) && LabelsTrue(st, w.hist, w.store)
  }

  lemma StaysKnown(h: History, k: SvcKey, v: Version, host: string, uid: string)
    requires KnownOn(h, host, uid)
    ensures KnownOn(Grown(h, k, v), host, uid)
  {
    hide Grown;
    var at: SvcKey :| at.host == host && CameFrom(h, at, uid);
    var n :| HasUid(h, at, n, uid);
    UidsAfter(h, k, v, at, n, uid);
  }

  /** A worker's call puts the two labels on a cluster only for the service it works for, under its own host. */
  lemma CarriersAfterCall(st: Setting, w: World, e: Event, uid: string, host: string)
    requires InSetting(st, w) && e.Call? && Can(st.config, w, e)
    requires HasCarrier(Do(st.config, w, e).store, uid, host)
    ensures HasCarrier(w.store, uid, host)
         || (KnownOn(w.hist, host, uid) && HasPlace(st, w.hist, uid))
  {
    var slot := SlotOf(w, e.worker);
    assert SlotOk(st.config, w.hist, slot) && SlotIn(st, w.hist, slot);
    hide InSetting, Inv, Next, Asks, Enabled, Sound, GivenIn, SameLookups, DataInv;
    var s' := Do(st.config, w, e).store;
    var k :| k in s' && Carries(k, s'[k], uid, host);
    if k in w.store {
      CallKeepsLookups(st.config, w, e, k) by { HasData(st, w); }
      SameCarrier(w.store[k], s'[k], k, uid, host);
    } else {
      NewCarrier(st, w, e, k, uid, host);
    }
  }

  lemma HasData(st: Setting, w: World)
    requires InSetting(st, w)
    ensures DataInv(st.config, w)
  {
    hide DataInv;
  }

  lemma SameCarrier(a: Object, b: Object, k: Key, uid: string, host: string)
    requires SameLookups(a, b) && Carries(k, b, uid, host)
    ensures Carries(k, a, uid, host)
  {
    assert IsLookup(LABEL_SERVICE_UID) && IsLookup(LABEL_HOST_CLUSTER);
  }

  lemma NewCarrier(st: Setting, w: World, e: Event, k: Key, uid: string, host: string)
    requires InSetting(st, w) && e.Call? && Can(st.config, w, e) && k !in w.store && k in Do(st.config, w, e).store
    requires Carries(k, Do(st.config, w, e).store[k], uid, host)
    ensures KnownOn(w.hist, host, uid) && HasPlace(st, w.hist, uid)
  {
    var slot := SlotOf(w, e.worker);
    var h := HostOf(st.config, slot);
    assert SlotOk(st.config, w.hist, slot) && SlotIn(st, w.hist, slot);
    hide InSetting, Inv, GivenIn, Next, PcIn;
    CreatedCarrier(h, slot.cached, slot.pc, w.store, e.a, k, uid, host);
    CreateStep(st, w.hist, h, slot.cached, slot.task.at, slot.pc, e.a);
    assert GivenIn(st, w.hist, uid, k);
    assert CameFrom(w.hist, slot.task.at, uid);
  }

  lemma CreatedCarrier(h: Host, cached: Cached, pc: Pc, s: Store, a: Action, k: Key, uid: string, host: string)
    requires Sound(h, cached, pc) && Answers(Asks(h, pc), a) && Enabled(s, a) && k !in s && k in Apply(s, a)
    requires Carries(k, Apply(s, a)[k], uid, host)
    ensures pc.ClusterCreate? && a.Create? && a.took && k == a.key && uid == pc.svc.uid && host == h.name
    ensures Serves(cached, pc.svc)
  {
    hide KeepsLookups, OwnJobs, GetProvisioningClusterName, NameFits;
  }

  lemma LabelsStayTrue(st: Setting, w: World, e: Event)
    requires InSetting(st, w) && LabelsTrue(st, w.hist, w.store) && Can(st.config, w, e) && Copying(st, w, e)
    ensures LabelsTrue(st, Do(st.config, w, e).hist, Do(st.config, w, e).store)
  {
    hide InSetting, KnownOn, HasPlace, HasCarrier, HomesOk, ManagementOk, Next, Asks, Apply, Enabled, MayBecome;
    var w' := Do(st.config, w, e);
    forall uid, host | HasCarrier(w'.store, uid, host)
      ensures KnownOn(w'.hist, host, uid) && HasPlace(st, w'.hist, uid)
    {
      if e.Call? {
        CarriersAfterCall(st, w, e, uid, host);
      } else if e.HostChange? {
        StaysKnown(w.hist, e.at, e.version, host, uid);
        StaysPlaced(st, w.hist, e.at, e.version, uid);
      }
    }
  }

  lemma InCopiesKept(st: Setting, w: World, e: Event)
    requires InCopies(st, w) && Can(st.config, w, e) && Copying(st, w, e)
    ensures InCopies(st, Do(st.config, w, e))
  {
    InSettingKept(st, w, e);
    LabelsStayTrue(st, w, e);
    hide InSetting, LabelsTrue;
  }

  /** In every run in which others only copy labels, a cluster with a service UID has it from a service that was on
      the host named beside it and can have a cluster. */
  lemma {:induction false} AlwaysInCopies(st: Setting, w: World, run: seq<Event>)
    requires InCopies(st, w) && Ran(st.config, w, run, CopyGuard(st))
    ensures InCopies(st, End(st.config, w, run, CopyGuard(st)))
    decreases |run|
  {
    hide InCopies, Can, Do, Copying;
    if run != [] {
      AlwaysInCopies(st, w, run[..|run| - 1]);
      InCopiesKept(st, End(st.config, w, run[..|run| - 1], CopyGuard(st)), run[|run| - 1]);
    }
  }

  lemma StartsInCopies(st: Setting, w: World)
    requires StartsCopied(st, w)
    ensures InCopies(st, w)
  {
    hide StartsIn, LabelsTrue, InSetting;
    StartsInSetting(st, w);
  }
}
