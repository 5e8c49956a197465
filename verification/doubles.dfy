/** When a service can get two provisioning clusters: the exact condition on a deployment. */
module Doubles {
  import opened Api
  import opened Calls
  import opened Naming
  import opened HandlerProgram
  import opened HandlerFacts
  import opened Lifecycle
  import opened Safety
  import opened Uniqueness
  import opened Deployment
  import opened DeploymentRuns

  /** The versions of this service can be given two different names or workspaces, be it that a name is generated,
      that an annotation may change or that its namespace may be moved to a project with another workspace. */
  ghost predicate HasTwoNames(st: Setting, at: SvcKey, uid: string) {
    exists p, q, key, key' :: NamesDiffer(st, at, uid, p, q, key, key')
  }

  ghost predicate NamesDiffer(st: Setting, at: SvcKey, uid: string, p: Posted, q: Posted, key: Key, key': Key) {
    Given(st, p, key) && Given(st, q, key') && p.at == q.at == at && p.svc.uid == q.svc.uid == uid && key != key'
  }

  /** Another service may be there under the same key at another time, so that two items of the key can be in hand. */
  ghost predicate HasRival(st: Setting, at: SvcKey, uid: string) {
    exists uid' :: uid' != uid && Creatable(st, at, uid')
  }

  ghost predicate Doubles(st: Setting) {
    exists at, uid :: HasTwoNames(st, at, uid) && HasRival(st, at, uid)
  }

  // ---- a deployment without such a service ----

  /** A worker creating for a service that has no rival is the first to do so. */
  ghost predicate SoleNone(st: Setting, w: World) {
    forall x, k :: Creating(SlotOf(w, x)) && !HasRival(st, SlotOf(w, x).task.at, SlotOf(w, x).pc.svc.uid)
      ==> !IsClusterFor(w.store, k, SlotOf(w, x).pc.svc.uid)
  }

  ghost predicate SingleIn(st: Setting, w: World) {
    InSetting(st, w) && AtMostOne(w.store) && SoleNone(st, w)
  }

  /** What a creating worker works for was there under its item's key. */
  lemma CreatorServesItsKey(st: Setting, w: World, x: nat)
    requires InSetting(st, w) && Creating(SlotOf(w, x))
    ensures var slot := SlotOf(w, x);
      CameFrom(w.hist, slot.task.at, slot.pc.svc.uid) && There(st, Posted(slot.task.at, slot.pc.svc))
  {
    hide Inv, StoreIn, HistoryIn, TasksApart, PcIn, Marked;
    assert SlotOk(st.config, w.hist, SlotOf(w, x)) && SlotIn(st, w.hist, SlotOf(w, x));
  }

  lemma SameKeyForUid(st: Setting, w: World, k: SvcKey, k': SvcKey, uid: string)
    requires InSetting(st, w) && CameFrom(w.hist, k, uid) && CameFrom(w.hist, k', uid)
    ensures k == k'
  {
    hide StoreIn, HistoryIn, TasksApart, SlotIn, SlotOk, NoReturn, DeletionStays, ProperVersions;
    var i :| HasUid(w.hist, k, i, uid);
    var j :| HasUid(w.hist, k', j, uid);
  }

  /** The items of a service without a rival are one item. */
  lemma SoleTask(st: Setting, w: World, x: nat)
    requires InSetting(st, w) && Creating(SlotOf(w, x))
    requires !HasRival(st, SlotOf(w, x).task.at, SlotOf(w, x).pc.svc.uid)
    ensures SlotOf(w, x).task == Task(SlotOf(w, x).task.at, SlotOf(w, x).pc.svc.uid)
  {
    hide StoreIn, TasksApart, SlotIn, SlotOk, HistoryOk, Over;
    var t := SlotOf(w, x).task;
    assert WasSeen(w.hist, Seen(w, t.at), t);
    var n :| n <= Seen(w, t.at) && HasUid(w.hist, t.at, n, t.uid);
    assert Creatable(st, t.at, t.uid);
  }

  /** So only one worker ever creates for it. */
  lemma SoleCreator(st: Setting, w: World, x: nat, y: nat)
    requires InSetting(st, w) && Creating(SlotOf(w, x)) && Creating(SlotOf(w, y))
    requires SlotOf(w, x).pc.svc.uid == SlotOf(w, y).pc.svc.uid
    requires !HasRival(st, SlotOf(w, x).task.at, SlotOf(w, x).pc.svc.uid)
    ensures x == y
  {
    CreatorServesItsKey(st, w, x);
    CreatorServesItsKey(st, w, y);
    hide HasRival, DataInv, HistoryIn, StoreIn, SlotIn;
    SameKeyForUid(st, w, SlotOf(w, x).task.at, SlotOf(w, y).task.at, SlotOf(w, x).pc.svc.uid);
    SoleTask(st, w, x);
    SoleTask(st, w, y);
  }

  /** A worker's create finds its name taken if its service has a cluster already and only one name to have. */
  lemma OneNameIsTaken(st: Setting, w: World, e: Event, k: Key)
    requires InSetting(st, w) && e.Call? && Can(st.config, w, e) && e.a.Create? && e.a.took
    requires SlotOf(w, e.worker).pc.ClusterCreate? && IsClusterFor(w.store, k, SlotOf(w, e.worker).pc.svc.uid)
    ensures HasTwoNames(st, SlotOf(w, e.worker).task.at, SlotOf(w, e.worker).pc.svc.uid)
  {
    var slot := SlotOf(w, e.worker);
    var uid := slot.pc.svc.uid;
    CreatorServesItsKey(st, w, e.worker);
    CreatedIsGiven(st, w, e);
    GivenAlready(st, w, k, uid);
    hide Given, InSetting, CameFrom, Asks, Answers;
    var p :| Given(st, p, k) && p.svc.uid == uid && CameFrom(w.hist, p.at, uid);
    SameKeyForUid(st, w, p.at, slot.task.at, uid);
    assert NamesDiffer(st, slot.task.at, uid, p, Posted(slot.task.at, slot.pc.svc), k, e.a.key);
  }

  lemma GivenAlready(st: Setting, w: World, k: Key, uid: string)
    requires InSetting(st, w) && IsClusterFor(w.store, k, uid)
    ensures GivenIn(st, w.hist, uid, k) && k in w.store
  {
    hide GivenIn, DataInv, HistoryIn, HomesOk, ManagementOk, SlotIn, TasksApart;
  }

  lemma CreatedIsGiven(st: Setting, w: World, e: Event)
    requires InSetting(st, w) && e.Call? && Can(st.config, w, e) && e.a.Create? && e.a.took
    requires SlotOf(w, e.worker).pc.ClusterCreate?
    ensures Given(st, Posted(SlotOf(w, e.worker).task.at, SlotOf(w, e.worker).pc.svc), e.a.key)
    ensures e.a.key !in w.store
  {
    var slot := SlotOf(w, e.worker);
    CreatorServesItsKey(st, w, e.worker);
    assert SlotOk(st.config, w.hist, slot) && SlotIn(st, w.hist, slot);
    hide Inv, HistoryIn, StoreIn, TasksApart, MayWork, GetProvisioningClusterName, Marked, Importable, Generated,
      CameFrom, There;
  }

  /** A second cluster for a service shows that the setting allows two. */
  lemma SecondMeansDoubles(st: Setting, w: World, e: Event)
    requires InSetting(st, w) && SoleNone(st, w) && Can(st.config, w, e) && SecondCreate(w, e)
    ensures Doubles(st)
  {
    var slot := SlotOf(w, e.worker);
    var k :| IsClusterFor(w.store, k, slot.pc.svc.uid);
    hide InSetting, IsClusterFor, HasTwoNames, HasRival, Can, Do;
    OneNameIsTaken(st, w, e, k);
    assert Creating(slot);
    assert HasRival(st, slot.task.at, slot.pc.svc.uid);
  }

  lemma AtMostOneStays(st: Setting, w: World, e: Event)
    requires SingleIn(st, w) && Can(st.config, w, e) && KeepsTo(st, w, e) && !Doubles(st)
    ensures AtMostOne(Do(st.config, w, e).store)
  {
    hide DataInv, HistoryIn, StoreIn, SlotIn, TasksApart, SoleNone, AtMostOne, SecondCreate, Doubles, Calm, Can, Do;
    assert SecondCreate(w, e) ==> Doubles(st) by {
      if SecondCreate(w, e) {
        SecondMeansDoubles(st, w, e);
      }
    }
    StepDoublesExactly(st.config, w, e);
  }

  lemma NewHere(st: Setting, w: World, e: Event, k: Key, uid: string)
    requires InSetting(st, w) && e.Call? && Can(st.config, w, e)
    requires IsClusterFor(Do(st.config, w, e).store, k, uid) && !IsClusterFor(w.store, k, uid)
    ensures var slot := SlotOf(w, e.worker);
      slot.Working? && slot.pc.ClusterCreate? && e.a.Create? && e.a.took && k == e.a.key && uid == slot.pc.svc.uid
  {
    var slot := SlotOf(w, e.worker);
    assert SlotOk(st.config, w.hist, slot);
    hide Inv, HistoryIn, StoreIn, TasksApart, SlotIn, Sound, Next, Asks, IsClusterFor, Enabled;
    NewClusterFrom(HostOf(st.config, slot), slot.cached, slot.pc, w.store, e.a, k, uid);
    CreatesAtClusterCreate(HostOf(st.config, slot), slot.pc, e.a);
  }

  lemma SoleNoneStays(st: Setting, w: World, e: Event)
    requires SingleIn(st, w) && Can(st.config, w, e) && KeepsTo(st, w, e)
    ensures SoleNone(st, Do(st.config, w, e))
  {
    hide InSetting, Next, Asks, Start, IsClusterFor, Enabled, HasRival, HomesOk, ManagementOk, AtMostOne;
    var w' := Do(st.config, w, e);
    forall x, k | Creating(SlotOf(w', x)) && !HasRival(st, SlotOf(w', x).task.at, SlotOf(w', x).pc.svc.uid)
      ensures !IsClusterFor(w'.store, k, SlotOf(w', x).pc.svc.uid)
    {
      if e.Call? {
        CallLeavesNone(st, w, e, x, k);
      } else if e.Look? && e.worker == x {
        StartsNotCreating(SlotOf(w, x).task, SlotOf(w', x));
      } else {
        assert SlotOf(w', x) == SlotOf(w, x);
        assert !IsClusterFor(w.store, k, SlotOf(w, x).pc.svc.uid);
        assert e.Outside? ==> OutsideMakesNoClusters(w.store, e.after, k, SlotOf(w', x).pc.svc.uid);
      }
    }
  }

  lemma CallLeavesNone(st: Setting, w: World, e: Event, x: nat, k: Key)
    requires SingleIn(st, w) && e.Call? && Can(st.config, w, e)
    requires Creating(SlotOf(Do(st.config, w, e), x))
    requires var slot' := SlotOf(Do(st.config, w, e), x); !HasRival(st, slot'.task.at, slot'.pc.svc.uid)
    ensures !IsClusterFor(Do(st.config, w, e).store, k, SlotOf(Do(st.config, w, e), x).pc.svc.uid)
  {
    hide InSetting, Next, Asks, Start, IsClusterFor, Enabled, HasRival, AtMostOne;
    var uid := SlotOf(Do(st.config, w, e), x).pc.svc.uid;
    NoneBefore(st, w, e, x, k);
    if IsClusterFor(Do(st.config, w, e).store, k, uid) {
      NewHere(st, w, e, k, uid);
      CreatingGoesOn(st, w, e, x);
      SoleCreator(st, w, x, e.worker);
    }
  }

  /** A worker that is creating after a call was creating before it, unless the call was its own empty listing. */
  lemma CreatingGoesOn(st: Setting, w: World, e: Event, x: nat)
    requires InSetting(st, w) && e.Call? && Can(st.config, w, e) && Creating(SlotOf(Do(st.config, w, e), x))
    requires SlotOf(w, e.worker).pc.ClusterCreate?
    ensures e.worker != x && SlotOf(Do(st.config, w, e), x) == SlotOf(w, x) && Creating(SlotOf(w, x))
    ensures Creating(SlotOf(w, e.worker))
  {
    hide HistoryIn, StoreIn, TasksApart, SlotIn, Inv, Sound, Next, Asks, Enabled;
    var slot := SlotOf(w, e.worker);
    assert SlotOk(st.config, w.hist, slot);
    if e.worker == x {
      var slot' := SlotOf(Do(st.config, w, e), x);
      StartsCreating(HostOf(st.config, slot), slot.cached, slot.pc, w.store, e.a, slot, slot');
    }
  }

  lemma NoneBefore(st: Setting, w: World, e: Event, x: nat, k: Key)
    requires SingleIn(st, w) && e.Call? && Can(st.config, w, e) && Creating(SlotOf(Do(st.config, w, e), x))
    requires var slot' := SlotOf(Do(st.config, w, e), x); !HasRival(st, slot'.task.at, slot'.pc.svc.uid)
    ensures !IsClusterFor(w.store, k, SlotOf(Do(st.config, w, e), x).pc.svc.uid)
  {
    hide HistoryIn, StoreIn, TasksApart, SlotIn, Inv, Sound, Next, Asks, Enabled, IsClusterFor, HasRival, AtMostOne,
      IsListing;
    var slot, slot' := SlotOf(w, e.worker), SlotOf(Do(st.config, w, e), x);
    assert SlotOk(st.config, w.hist, slot);
    if e.worker == x {
      StartsCreating(HostOf(st.config, slot), slot.cached, slot.pc, w.store, e.a, slot, slot');
      if !Creating(slot) {
        ListedNone(w.store, slot'.pc.svc.uid, k);
      } else {
        assert slot'.task == slot.task && slot'.pc.svc == slot.pc.svc;
      }
    } else {
      assert slot' == SlotOf(w, x);
    }
  }

  lemma {:induction false} AlwaysSingle(st: Setting, w: World, run: seq<Event>)
    requires SingleIn(st, w) && Ran(st.config, w, run, Guard(st)) && !Doubles(st)
    ensures SingleIn(st, End(st.config, w, run, Guard(st)))
    decreases |run|
  {
    hide Doubles, Can, Do, KeepsTo, InSetting, SoleNone, AtMostOne;
    if run != [] {
      var before := run[..|run| - 1];
      AlwaysSingle(st, w, before);
      var mid := End(st.config, w, before, Guard(st));
      InSettingKept(st, mid, run[|run| - 1]);
      AtMostOneStays(st, mid, run[|run| - 1]);
      SoleNoneStays(st, mid, run[|run| - 1]);
    }
  }

  lemma StartsSingle(st: Setting, w: World)
    requires StartsIn(st, w) && AtMostOne(w.store)
    ensures SingleIn(st, w)
  {
    StartsInSetting(st, w);
    hide InSetting, AtMostOne, HistoryIn, StoreIn, HistoryOk;
  }

  /** In every run of a deployment in which no service has both a rival under its key and two names to have, at
      most one provisioning cluster ever carries a given service UID, with overlapping items, any cache lag and any
      number of workers. */
  lemma OneClusterUnlessDoubled(st: Setting, w: World, run: seq<Event>)
    requires StartsIn(st, w) && AtMostOne(w.store) && Ran(st.config, w, run, Guard(st)) && !Doubles(st)
    ensures AtMostOne(End(st.config, w, run, Guard(st)).store)
  {
    hide Doubles, InSetting, SoleNone, StartsIn, AtMostOne;
    StartsSingle(st, w);
    AlwaysSingle(st, w, run);
  }

  /** In particular where all versions of a service lead to one name and one workspace: a later create finds the
      name taken and is absorbed. */
  lemma OneClusterWhenNamesAgree(st: Setting, w: World, run: seq<Event>)
    requires StartsIn(st, w) && AtMostOne(w.store) && Ran(st.config, w, run, Guard(st))
    requires forall uid, key, key' :: MayGet(st, uid, key) && MayGet(st, uid, key') ==> key == key'
    ensures AtMostOne(End(st.config, w, run, Guard(st)).store)
  {
    hide Given, StartsIn, AtMostOne, HasRival;
    forall at, uid
      ensures !HasTwoNames(st, at, uid)
    {
      forall p, q, key, key'
        ensures !NamesDiffer(st, at, uid, p, q, key, key')
      {
        assert NamesDiffer(st, at, uid, p, q, key, key') ==> MayGet(st, uid, key) && MayGet(st, uid, key');
      }
    }
    OneClusterUnlessDoubled(st, w, run);
  }

  // ---- a run to two clusters ----

  /** The store holds no provisioning cluster. */
  ghost predicate Bare(s: Store) {
    forall k: Key | k.kind == ProvisioningCluster :: k !in s
  }

  lemma BareHasNone(s: Store)
    requires Bare(s)
    ensures forall k, uid :: !IsClusterFor(s, k, uid)
  {
  }

  lemma StaysBare(s: Store, s': Store)
    requires Bare(s) && SameClusters(s, s')
    ensures Bare(s')
  {
  }

  lemma UpdateMayCome(h: History, p: Posted, q: Posted)
    requires p.at == q.at && p.svc.uid == q.svc.uid && !p.svc.deleting && KeyOf(q.svc) == q.at.key
    ensures MayBecome(Grown(h, p.at, Present(p.svc)), q.at, Present(q.svc))
  {
    var h' := Grown(h, p.at, Present(p.svc));
    assert Now(h', q.at) == Present(p.svc);
  }

  /** From nothing: the rival has come and gone, and its item, which is still around, finds the service. */
  lemma RivalsItemServes(st: Setting, r: Posted, p: Posted, spot: Spot) returns (w: World)
    requires There(st, r) && r.at == p.at && r.svc.uid != p.svc.uid && r.svc.uid != "" && !r.svc.deleting
    requires There(st, p) && Placeable(st, p, spot)
    ensures Leads(st, NOTHING, w) && Bare(w.store)
    ensures w.hist == Grown(Grown(Grown(map[], r.at, Present(r.svc)), r.at, Absent), p.at, Present(p.svc))
    ensures SlotOf(w, 0) == Working(Task(p.at, r.svc.uid), Found(p.svc), CreatingPc(st, p, spot))
    ensures forall y | y != 0 :: SlotOf(w, y).Idle?
    ensures Task(p.at, p.svc.uid) in w.tasks
  {
    NothingStarts(st);
    NothingIdle();
    FirstVersion(r);
    ImportableIsThere(st, p, spot);
    AnotherMayCome(r, p);
    var h1 := Grown(map[], r.at, Present(r.svc));
    assert Hist(h1, r.at) != [] && Now(h1, r.at).Present?;
    hide Leads, MayBecome, Placeable, IsClusterFor, SlotOf, Grown, Hist, LiveAt, HasRooms, SameClusters, CacheOf, There;
    var w1 := Appear(st, NOTHING, NOTHING, r);
    SameSlots(NOTHING, w1);
    var w2 := Vanish(st, NOTHING, w1, r.at);
    SameSlots(w1, w2);
    var w3 := StartsServing(st, NOTHING, w2, 0, p, spot, Task(p.at, r.svc.uid));
    StaysBare(NOTHING.store, w3.store);
    BareHasNone(w3.store);
    w := ReachesCreate(st, NOTHING, w3, 0, p, spot);
  }

  lemma ImportableIsThere(st: Setting, p: Posted, spot: Spot)
    requires Placeable(st, p, spot)
    ensures !p.svc.deleting && p.svc.uid != ""
  {
    hide MayLie, GetProvisioningClusterName;
  }

  /** For all settings and all services with a rival and two names to have: a run from nothing in which two
      overlapping items of one key give the service two clusters. Between the two lookups others move the namespace
      if the two names are in different workspaces. */
  lemma OverlapMakesTwo(st: Setting, at: SvcKey, uid: string, p: Posted, q: Posted, key: Key, key': Key, r: Posted)
    returns (w: World)
    requires NamesDiffer(st, at, uid, p, q, key, key')
    requires There(st, r) && r.at == at && r.svc.uid != uid && r.svc.uid != "" && !r.svc.deleting
    ensures Leads(st, NOTHING, w) && !AtMostOne(w.store)
  {
    var spot := GivenFits(st, p, key);
    var spot' := GivenFits(st, q, key');
    FitsPlaceable(st, p, spot, key);
    FitsPlaceable(st, q, spot', key');
    hide Leads, There, MayBecome, Placeable, IsClusterFor, SlotOf, Grown, Given, FitsAt, HasRooms, SameClusters, ClusterOf,
      CreatingPc, MayLie, AtMostOne;
    var w1 := RivalsItemServes(st, r, p, spot);
    UpdateMayCome(Grown(Grown(map[], r.at, Present(r.svc)), r.at, Absent), p, q) by { KeyOfThere(st, q); }
    var w2 := StartsServing(st, NOTHING, w1, 1, q, spot', Task(at, uid));
    StaysBare(w1.store, w2.store);
    BareHasNone(w2.store);
    var w3 := ReachesCreate(st, NOTHING, w2, 1, q, spot');
    var w4 := CreatesUnder(st, NOTHING, w3, 0, p, spot, key);
    w := CreatesUnder(st, NOTHING, w4, 1, q, spot', key');
    BothAreClusters(st, w3.store, p, spot, q, spot', key, key');
  }

  lemma KeyOfThere(st: Setting, p: Posted)
    requires There(st, p)
    ensures KeyOf(p.svc) == p.at.key
  {
  }

  lemma BothAreClusters(st: Setting, s: Store, p: Posted, spot: Spot, q: Posted, spot': Spot, key: Key, key': Key)
    requires key != key' && p.svc.uid == q.svc.uid && key !in s && key' !in s
    requires key.cluster == LOCAL && key.kind == ProvisioningCluster && key'.cluster == LOCAL
    requires key'.kind == ProvisioningCluster
    ensures !AtMostOne(s[key := ClusterOf(st, p, spot)][key' := ClusterOf(st, q, spot')])
  {
    var s1 := s[key := ClusterOf(st, p, spot)];
    ClusterIsFor(st, s, p, spot, key, key, p.svc.uid);
    ClusterIsFor(st, s1, q, spot', key', key, p.svc.uid);
    ClusterIsFor(st, s1, q, spot', key', key', p.svc.uid);
    hide IsClusterFor, ClusterOf;
    var s2 := s1[key' := ClusterOf(st, q, spot')];
    assert IsClusterFor(s2, key, p.svc.uid) && IsClusterFor(s2, key', p.svc.uid);
  }

  // ---- the exact condition ----

  /** Some run of the deployment, from nothing, comes to hold two clusters for one service UID. */
  ghost predicate CanDouble(st: Setting) {
    exists run :: DoublesAfter(st, run)
  }

  ghost predicate DoublesAfter(st: Setting, run: seq<Event>) {
    Ran(st.config, NOTHING, run, Guard(st)) && !AtMostOne(End(st.config, NOTHING, run, Guard(st)).store)
  }

  /** A service can come to have two provisioning clusters if and only if it has two names or workspaces to have, which
      it has if its namespace may move, and another service may be there under its key at another time. */
  lemma TwoClustersExactly(st: Setting)
    ensures CanDouble(st) <==> Doubles(st)
  {
    NothingStarts(st);
    NothingIdle();
    hide Leads, Ran, End, StartsIn, IsClusterFor, InSetting, Given;
    assert CanDouble(st) ==> Doubles(st) by {
      if !Doubles(st) {
        forall run
          ensures !DoublesAfter(st, run)
        {
          if Ran(st.config, NOTHING, run, Guard(st)) {
            OneClusterUnlessDoubled(st, NOTHING, run);
          }
        }
      }
    }
    if Doubles(st) {
      var at, uid :| HasTwoNames(st, at, uid) && HasRival(st, at, uid);
      var p, q, key, key' :| NamesDiffer(st, at, uid, p, q, key, key');
      var uid' :| uid' != uid && Creatable(st, at, uid');
      var r: Posted :| There(st, r) && r.at == at && r.svc.uid == uid' && !r.svc.deleting;
      var w := OverlapMakesTwo(st, at, uid, p, q, key, key', r);
      var run := LeadsMeansRun(st, NOTHING, w);
      assert DoublesAfter(st, run);
    }
  }
}
