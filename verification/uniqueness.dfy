/** How many provisioning clusters a service can get, and whose clusters a worker touches, over whole runs. */
module Uniqueness {
  import opened Api
  import opened Calls
  import opened Constants
  import opened Config
  import opened Naming
  import opened HandlerProgram
  import opened HandlerFacts
  import opened Lifecycle
  import opened Safety

  /** A provisioning cluster that the lookup by this service UID finds. */
  predicate IsClusterFor(s: Store, k: Key, uid: string) {
    k in s && k.cluster == LOCAL && k.kind == ProvisioningCluster && Selects(HasValue(LABEL_SERVICE_UID, uid), s[k].labels)
  }

  ghost predicate AtMostOne(s: Store) {
    forall k, k', uid :: IsClusterFor(s, k, uid) && IsClusterFor(s, k', uid) ==> k == k'
  }

  /** The worker has found no cluster for its service and has not created one yet. */
  predicate Creating(slot: Slot) {
    slot.Working?
      && (slot.pc.ProjectGet? || slot.pc.WorkspaceGet? || slot.pc.WorkspaceCreate? || slot.pc.ClusterCreate?)
  }

  /** A worker's call makes no cluster a service's own except by the create call of that service's worker. */
  lemma NewClusterFrom(h: Host, cached: Cached, pc: Pc, s: Store, a: Action, k: Key, uid: string)
    requires Sound(h, cached, pc) && Answers(Asks(h, pc), a) && Enabled(s, a) && IsClusterFor(Apply(s, a), k, uid)
    ensures IsClusterFor(s, k, uid) || (pc.ClusterCreate? && a.took && k == a.key && uid == pc.svc.uid)
  {
    hide KeepsLookups, OwnJobs;
  }

  lemma ListedNone(s: Store, uid: string, k: Key)
    requires IsListing(s, ByServiceUid(ProvisioningCluster, uid), [])
    ensures !IsClusterFor(s, k, uid)
  {
    if IsClusterFor(s, k, uid) {
      assert Matches(ByServiceUid(ProvisioningCluster, uid), k, s[k]);
    }
  }

  /** A worker starts creating only from an empty listing, and stops creating with its create call. */
  lemma StartsCreating(h: Host, cached: Cached, pc: Pc, s: Store, a: Action, slot: Slot, slot': Slot)
    requires slot.Working? && slot.pc == pc && slot' == slot.(pc := Next(h, pc, a))
    requires Sound(h, cached, pc) && Answers(Asks(h, pc), a) && Enabled(s, a) && Creating(slot')
    ensures slot'.pc.svc == pc.svc && !pc.ClusterCreate? && Serves(cached, pc.svc)
    ensures Creating(slot) || (pc.ClusterList? && IsListing(s, ByServiceUid(ProvisioningCluster, pc.svc.uid), []))
  {
    hide JobScan, Marked, BaseLabels, KeepsLookups, OwnJobs, IsListing;
    if pc.JobList? && a.items.Ok? {
      ScanTargets(pc.svc, a.items.value);
    }
    if pc.JobDelete? {
      ScanTargets(pc.svc, pc.jobs[1..]);
    }
  }

  // ---- the step that makes two ----

  /** Only the operator labels provisioning clusters with service UIDs. */
  ghost predicate Calm(w: World, e: Event) {
    e.Outside? ==> forall k, uid :: OutsideMakesNoClusters(w.store, e.after, k, uid)
  }

  predicate OutsideMakesNoClusters(s: Store, after: Store, k: Key, uid: string) {
    IsClusterFor(after, k, uid) ==> IsClusterFor(s, k, uid)
  }

  /** A create takes effect for a service that has a cluster already: what listing once more before the create
      would find out. */
  ghost predicate SecondCreate(w: World, e: Event) {
    e.Call? && SlotOf(w, e.worker).Working? && SlotOf(w, e.worker).pc.ClusterCreate? && e.a.Create? && e.a.took
    && exists k :: IsClusterFor(w.store, k, SlotOf(w, e.worker).pc.svc.uid)
  }

  /** A worker is at its create call, its service has a cluster already, and a fitting name is free. */
  ghost predicate CanDoubleNow(w: World, x: nat) {
    && SlotOf(w, x).Working? && SlotOf(w, x).pc.ClusterCreate?
    && (exists k :: IsClusterFor(w.store, k, SlotOf(w, x).pc.svc.uid))
    && (exists name :: FitsFree(w, x, name))
  }

  predicate FitsFree(w: World, x: nat, name: string) {
    && SlotOf(w, x).Working? && SlotOf(w, x).pc.ClusterCreate? && NameFits(SlotOf(w, x).pc.choice, name)
    && Key(LOCAL, ProvisioningCluster, SlotOf(w, x).pc.target, name) !in w.store
  }

  lemma CreateMakesCluster(h: Host, cached: Cached, pc: Pc, s: Store, a: Action)
    requires pc.ClusterCreate? && Sound(h, cached, pc) && Answers(Asks(h, pc), a) && Enabled(s, a)
    ensures a.Create? && (a.took ==> a.key !in s && IsClusterFor(Apply(s, a), a.key, pc.svc.uid))
    ensures forall k, uid | IsClusterFor(s, k, uid) :: IsClusterFor(Apply(s, a), k, uid)
  {
    hide GetProvisioningClusterName, NameFits, Generated;
  }

  /** From at most one cluster per service, a step makes two if and only if it is such a second create. */
  lemma StepDoublesExactly(c: Config, w: World, e: Event)
    requires DataInv(c, w) && AtMostOne(w.store) && Can(c, w, e) && Calm(w, e)
    ensures AtMostOne(Do(c, w, e).store) <==> !SecondCreate(w, e)
  {
    hide Sound, Next, Asks, Inv, Start, IsClusterFor, Enabled;
    var s' := Do(c, w, e).store;
    if e.Call? {
      var slot := SlotOf(w, e.worker);
      assert SlotOk(c, w.hist, slot);
      if SecondCreate(w, e) {
        var k :| IsClusterFor(w.store, k, slot.pc.svc.uid);
        CreateMakesCluster(HostOf(c, slot), slot.cached, slot.pc, w.store, e.a);
        IsThere(w.store, k, slot.pc.svc.uid);
        assert IsClusterFor(s', k, slot.pc.svc.uid) && IsClusterFor(s', e.a.key, slot.pc.svc.uid);
      } else {
        FirstKeepsSingle(c, w, e);
      }
    } else {
      forall k, k', uid | IsClusterFor(s', k, uid) && IsClusterFor(s', k', uid)
        ensures k == k'
      {
        assert e.Outside? ==>
          OutsideMakesNoClusters(w.store, e.after, k, uid) && OutsideMakesNoClusters(w.store, e.after, k', uid);
      }
    }
  }

  lemma IsThere(s: Store, k: Key, uid: string)
    requires IsClusterFor(s, k, uid)
    ensures k in s
  {
  }

  lemma FirstKeepsSingle(c: Config, w: World, e: Event)
    requires DataInv(c, w) && AtMostOne(w.store) && e.Call? && Can(c, w, e) && !SecondCreate(w, e)
    ensures AtMostOne(Do(c, w, e).store)
  {
    hide Sound, Next, Asks, Inv, Start, IsClusterFor, Enabled;
    var slot := SlotOf(w, e.worker);
    var s' := Do(c, w, e).store;
    assert SlotOk(c, w.hist, slot);
    forall k, k', uid | IsClusterFor(s', k, uid) && IsClusterFor(s', k', uid)
      ensures k == k'
    {
      NewClusterFrom(HostOf(c, slot), slot.cached, slot.pc, w.store, e.a, k, uid);
      NewClusterFrom(HostOf(c, slot), slot.cached, slot.pc, w.store, e.a, k', uid);
      if slot.pc.ClusterCreate? {
        CreatesAtClusterCreate(HostOf(c, slot), slot.pc, e.a);
      }
    }
  }

  lemma CreatesAtClusterCreate(h: Host, pc: Pc, a: Action)
    requires pc.ClusterCreate? && Answers(Asks(h, pc), a)
    ensures a.Create?
  {
  }

  /** In every reachable world with at most one cluster per service, some next step of the hosts, informers or
      workers makes two if and only if a worker is at its create call while its service has a cluster already and a
      name that fits its choice is free in its workspace. */
  lemma NextDoublesExactly(c: Config, w: World, run: seq<Event>, g: (World, Event) -> bool)
    requires Init(w) && Ran(c, w, run, g) && AtMostOne(End(c, w, run, g).store)
    ensures var now := End(c, w, run, g);
      (exists e :: Doubling(c, now, e)) <==> (exists x :: CanDoubleNow(now, x))
  {
    DataInvAlways(c, w, run, g);
    var now := End(c, w, run, g);
    hide DataInv, AtMostOne, SecondCreate, CanDoubleNow, Can, Do;
    if e :| Doubling(c, now, e) {
      StepDoublesExactly(c, now, e);
      SecondCreateIsFree(c, now, e);
    }
    if x :| CanDoubleNow(now, x) {
      FreeCanDouble(c, now, x);
    }
  }

  ghost predicate Doubling(c: Config, w: World, e: Event) {
    !e.Outside? && Can(c, w, e) && !AtMostOne(Do(c, w, e).store)
  }

  lemma SecondCreateIsFree(c: Config, w: World, e: Event)
    requires Can(c, w, e) && SecondCreate(w, e)
    ensures CanDoubleNow(w, e.worker)
  {
    hide IsClusterFor, Generated;
    assert FitsFree(w, e.worker, e.a.key.name);
  }

  lemma FreeCanDouble(c: Config, w: World, x: nat)
    requires DataInv(c, w) && AtMostOne(w.store) && CanDoubleNow(w, x)
    ensures exists e :: Doubling(c, w, e)
  {
    hide DataInv, AtMostOne, IsClusterFor, Generated;
    var name :| FitsFree(w, x, name);
    var pc := SlotOf(w, x).pc;
    var key := Key(LOCAL, ProvisioningCluster, pc.target, name);
    var e := Call(x, Action.Create(key, Object("", pc.labels, [], false, map[]), true, Ok(())));
    StepDoublesExactly(c, w, e);
    assert Doubling(c, w, e);
  }

  /** At most one cluster per service at every moment of the run. */
  ghost predicate SingleThroughout(c: Config, w: World, run: seq<Event>)
    requires Ran(c, w, run, (v, e) => Calm(v, e))
    decreases |run|
  {
    AtMostOne(End(c, w, run, (v, e) => Calm(v, e)).store)
    && (run == [] || SingleThroughout(c, w, run[..|run| - 1]))
  }

  ghost predicate NoSecondCreates(c: Config, w: World, run: seq<Event>)
    requires Ran(c, w, run, (v, e) => Calm(v, e))
    decreases |run|
  {
    run == [] ||
    (NoSecondCreates(c, w, run[..|run| - 1])
     && !SecondCreate(End(c, w, run[..|run| - 1], (v, e) => Calm(v, e)), run[|run| - 1]))
  }

  /** A run keeps to one cluster per service throughout if and only if no create in it took effect while its service
      had a cluster. */
  lemma {:induction false} SingleExactly(c: Config, w: World, run: seq<Event>)
    requires Init(w) && AtMostOne(w.store) && Ran(c, w, run, (v, e) => Calm(v, e))
    ensures SingleThroughout(c, w, run) <==> NoSecondCreates(c, w, run)
    decreases |run|
  {
    hide Can, Do, Calm, DataInv, AtMostOne, SecondCreate, Init;
    if run != [] {
      var before := run[..|run| - 1];
      var g := (v, e) => Calm(v, e);
      SingleExactly(c, w, before);
      DataInvAlways(c, w, before, (v, e) => Calm(v, e));
      if SingleThroughout(c, w, before) {
        StepDoublesExactly(c, End(c, w, before, (v, e) => Calm(v, e)), run[|run| - 1]);
      }
    }
  }

  // ---- one cluster per service, one item per key in flight ----

  /** No worker takes an item while another one has an item of the same key, and only the operator labels
      provisioning clusters with service UIDs. */
  ghost predicate OneItemPerKey(w: World, e: Event) {
    && (e.Take? ==> forall y :: SlotOf(w, y).Idle? || SlotOf(w, y).task.at != e.task.at)
    && Calm(w, e)
  }

  ghost predicate KeysApart(w: World) {
    forall x, y :: SlotOf(w, x).Idle? || SlotOf(w, y).Idle? || x == y || SlotOf(w, x).task.at != SlotOf(w, y).task.at
  }

  ghost predicate NoneYet(w: World) {
    forall x, k :: Creating(SlotOf(w, x)) ==> !IsClusterFor(w.store, k, SlotOf(w, x).pc.svc.uid)
  }

  ghost predicate Single(c: Config, w: World) {
    DataInv(c, w) && KeysApart(w) && NoneYet(w) && AtMostOne(w.store)
  }

  /** Two workers that create for the same UID work on the same key. */
  lemma CreatorsShareKey(c: Config, w: World, x: nat, y: nat)
    requires DataInv(c, w) && Creating(SlotOf(w, x)) && Creating(SlotOf(w, y))
    requires SlotOf(w, x).pc.svc.uid == SlotOf(w, y).pc.svc.uid
    ensures SlotOf(w, x).task.at == SlotOf(w, y).task.at
  {
    hide Marked;
    assert SlotOk(c, w.hist, SlotOf(w, x)) && SlotOk(c, w.hist, SlotOf(w, y));
    var uid := SlotOf(w, x).pc.svc.uid;
    var i :| HasUid(w.hist, SlotOf(w, x).task.at, i, uid);
    var j :| HasUid(w.hist, SlotOf(w, y).task.at, j, uid);
  }

  lemma AtMostOneKept(c: Config, w: World, e: Event)
    requires Single(c, w) && Can(c, w, e) && OneItemPerKey(w, e)
    ensures AtMostOne(Do(c, w, e).store)
  {
    hide DataInv, AtMostOne, IsClusterFor, Can, Do;
    assert !SecondCreate(w, e) by {
      assert e.Call? && SlotOf(w, e.worker).Working? && SlotOf(w, e.worker).pc.ClusterCreate? ==> Creating(SlotOf(w, e.worker));
    }
    StepDoublesExactly(c, w, e);
  }

  lemma NoneYetKept(c: Config, w: World, e: Event)
    requires Single(c, w) && Can(c, w, e) && OneItemPerKey(w, e)
    ensures NoneYet(Do(c, w, e))
  {
    hide Sound, Next, Asks, Inv, Start, IsClusterFor, Enabled, AtMostOne;
    var w' := Do(c, w, e);
    forall x, k | Creating(SlotOf(w', x))
      ensures !IsClusterFor(w'.store, k, SlotOf(w', x).pc.svc.uid)
    {
      var slot, slot' := SlotOf(w, x), SlotOf(w', x);
      if e.Call? {
        var caller := SlotOf(w, e.worker);
        assert SlotOk(c, w.hist, caller);
        if e.worker == x {
          StartsCreating(HostOf(c, slot), slot.cached, slot.pc, w.store, e.a, slot, slot');
          NoneAtOwnCall(c, w, e, k);
        } else if IsClusterFor(w'.store, k, slot'.pc.svc.uid) {
          NewClusterFrom(HostOf(c, caller), caller.cached, caller.pc, w.store, e.a, k, slot'.pc.svc.uid);
          NoRivalCreator(c, w, x, e.worker);
        }
      } else if e.Look? && e.worker == x {
        StartsNotCreating(slot.task, slot');
      } else if e.Outside? {
        assert OutsideMakesNoClusters(w.store, e.after, k, slot'.pc.svc.uid);
      }
    }
  }

  lemma NoRivalCreator(c: Config, w: World, x: nat, y: nat)
    requires Single(c, w) && x != y && Creating(SlotOf(w, x))
    ensures SlotOf(w, y).Working? && SlotOf(w, y).pc.ClusterCreate? ==>
      SlotOf(w, x).pc.svc.uid != SlotOf(w, y).pc.svc.uid
  {
    if SlotOf(w, y).Working? && SlotOf(w, y).pc.ClusterCreate? && SlotOf(w, x).pc.svc.uid == SlotOf(w, y).pc.svc.uid {
      CreatorsShareKey(c, w, x, y);
    }
  }

  lemma NoneAtOwnCall(c: Config, w: World, e: Event, k: Key)
    requires Single(c, w) && Can(c, w, e) && e.Call?
    requires Creating(SlotOf(Do(c, w, e), e.worker))
    ensures !IsClusterFor(Do(c, w, e).store, k, SlotOf(Do(c, w, e), e.worker).pc.svc.uid)
  {
    hide Sound, Next, Asks, Inv, Start, Enabled, AtMostOne, IsListing;
    var slot, slot' := SlotOf(w, e.worker), SlotOf(Do(c, w, e), e.worker);
    var uid := slot'.pc.svc.uid;
    assert SlotOk(c, w.hist, slot);
    StartsCreating(HostOf(c, slot), slot.cached, slot.pc, w.store, e.a, slot, slot');
    if !Creating(slot) {
      ListedNone(w.store, uid, k);
    }
    assert !IsClusterFor(w.store, k, uid);
    if IsClusterFor(Apply(w.store, e.a), k, uid) {
      NewClusterFrom(HostOf(c, slot), slot.cached, slot.pc, w.store, e.a, k, uid);
    }
  }

  lemma StartsNotCreating(t: Task, slot: Slot)
    requires slot.Working? && slot.pc == Start(Item(t.at.key, t.uid), slot.cached)
    ensures !Creating(slot)
  {
  }

  lemma SingleKept(c: Config, w: World, e: Event)
    requires Single(c, w) && Can(c, w, e) && OneItemPerKey(w, e)
    ensures Single(c, Do(c, w, e))
  {
    DataInvKept(c, w, e);
    AtMostOneKept(c, w, e);
    NoneYetKept(c, w, e);
    KeysApartKept(c, w, e);
  }

  lemma KeysApartKept(c: Config, w: World, e: Event)
    requires KeysApart(w) && Can(c, w, e) && OneItemPerKey(w, e)
    ensures KeysApart(Do(c, w, e))
  {
    hide Next, Asks, Start;
    var w' := Do(c, w, e);
    forall x, y
      ensures SlotOf(w', x).Idle? || SlotOf(w', y).Idle? || x == y || SlotOf(w', x).task.at != SlotOf(w', y).task.at
    {
      var a, b := SlotOf(w, x), SlotOf(w, y);
      if e.Take? {
        assert a.Idle? || a.task.at != e.task.at;
        assert b.Idle? || b.task.at != e.task.at;
      }
    }
  }

  /** In every run in which no two items of one key are in flight together, at most one provisioning cluster
      ever carries a given service UID. */
  lemma {:induction false} OneClusterPerService(c: Config, w: World, run: seq<Event>)
    requires Init(w) && AtMostOne(w.store) && Ran(c, w, run, (v, e) => OneItemPerKey(v, e))
    ensures Single(c, End(c, w, run, (v, e) => OneItemPerKey(v, e)))
    ensures AtMostOne(End(c, w, run, (v, e) => OneItemPerKey(v, e)).store)
    decreases |run|
  {
    hide Can, Do, OneItemPerKey, Inv;
    if run == [] {
      InitInv(w);
    } else {
      OneClusterPerService(c, w, run[..|run| - 1]);
      SingleKept(c, End(c, w, run[..|run| - 1], (v, e) => OneItemPerKey(v, e)), run[|run| - 1]);
    }
  }

  // ---- lookup labels ----

  ghost predicate SameLookups(a: Object, b: Object) {
    forall l | IsLookup(l) :: SameAt(a.labels, b.labels, l)
  }

  lemma PatchKeepsLookups(now: Object, change: Change)
    requires KeepsLookups(change)
    ensures SameLookups(now, Patched(now, change))
  {
    forall l | IsLookup(l)
      ensures SameAt(now.labels, Patched(now, change).labels, l)
    {
      assert SameAt(change.oldLabels, change.newLabels, l);
    }
  }

  /** Whatever is configured for syncing, no step of any worker changes a lookup label of an object that is
      there; so lookups by service UID keep finding the same management clusters. */
  lemma WorkersKeepLookups(c: Config, w: World, run: seq<Event>, g: (World, Event) -> bool, e: Event, k: Key)
    requires Init(w) && Ran(c, w, run, g) && e.Call? && Can(c, End(c, w, run, g), e)
    requires k in End(c, w, run, g).store && k in Do(c, End(c, w, run, g), e).store
    ensures SameLookups(End(c, w, run, g).store[k], Do(c, End(c, w, run, g), e).store[k])
  {
    hide SameLookups, Sound, DataInv, Inv;
    DataInvAlways(c, w, run, g);
    CallKeepsLookups(c, End(c, w, run, g), e, k);
  }

  lemma CallKeepsLookups(c: Config, w: World, e: Event, k: Key)
    requires DataInv(c, w) && e.Call? && Can(c, w, e) && k in w.store && k in Do(c, w, e).store
    ensures SameLookups(w.store[k], Do(c, w, e).store[k])
  {
    hide Inv, Next, KeepsLookups, Marked, OwnJobs;
    var slot := SlotOf(w, e.worker);
    assert SlotOk(c, w.hist, slot);
    if e.a.Patch? && e.a.took && k == e.a.key {
      PatchKeepsLookups(w.store[k], e.a.change);
    }
  }

  // ---- whose management cluster is patched ----

  lemma ListedForPatch(h: Host, pc: Pc, s: Store, a: Action)
    requires Answers(Asks(h, pc), a) && Enabled(s, a) && Next(h, pc, a).MgmtPatch?
    ensures var to := Next(h, pc, a);
      to.key in s && ServiceUidOf(s[to.key]) == to.svc.uid && to.key.kind == ManagementCluster && Apply(s, a) == s
  {
    hide JobScan, MgmtChange;
    if pc.MgmtList? {
      var first := a.items.value[0];
      assert first.key in s && Matches(a.query, first.key, first.obj);
    } else if pc.JobList? && a.items.Ok? {
      ScanTargets(pc.svc, a.items.value);
    } else if pc.JobDelete? {
      ScanTargets(pc.svc, pc.jobs[1..]);
    }
  }

  /** A worker's call adds no management cluster. */
  lemma NoNewManagement(h: Host, cached: Cached, pc: Pc, s: Store, a: Action, k: Key)
    requires Sound(h, cached, pc) && Answers(Asks(h, pc), a) && Enabled(s, a)
    requires k.kind == ManagementCluster && k in Apply(s, a)
    ensures k in s
  {
    hide KeepsLookups, Marked, OwnJobs;
  }
}
