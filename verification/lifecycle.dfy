/** All handlers of all host clusters at once, with any number of workers, the informers' caches lagging
    behind the hosts, and services created, deleted and recreated under the same key. One event is one step
    of one party; runs are arbitrary sequences of events. */
module Lifecycle {
  import opened Api
  import opened Calls
  import opened Config
  import opened Naming
  import opened HandlerProgram
  import HandlerFacts

  /** A service key (`namespace/name`) on a host cluster. */
  datatype SvcKey = SvcKey(host: string, key: string)

  /** The key under which the informer keeps a service. */
  function KeyOf(svc: Service): string {
    if svc.namespace == "" then svc.name else svc.namespace + "/" + svc.name
  }

  /** A queue item of the host's handler. */
  datatype Task = Task(at: SvcKey, uid: string)

  datatype Version = Absent | Present(svc: Service)

  datatype Slot = Idle | Taken(task: Task) | Working(task: Task, cached: Cached, pc: Pc)

  type History = map<SvcKey, seq<Version>>

  /** `hist` is what each key has held on its host, oldest first; `seen` is how far the informer has come;
      `tasks` are the items the informer's events have ever put into the queue. */
  datatype World = World(
    hist: History,
    seen: map<SvcKey, nat>,
    tasks: set<Task>,
    slots: map<nat, Slot>,
    store: Store)

  datatype Event =
    | HostChange(at: SvcKey, version: Version)
    | Observe(at: SvcKey, upTo: nat)
    | Take(worker: nat, task: Task)
    | Look(worker: nat, broken: bool)
    | Call(worker: nat, a: Action)
    | Release(worker: nat)
    | Outside(after: Store)

  function Hist(h: History, k: SvcKey): seq<Version> {
    if k in h then h[k] else [Absent]
  }

  function Seen(w: World, k: SvcKey): nat {
    if k in w.seen then w.seen[k] else 0
  }

  function SlotOf(w: World, x: nat): Slot {
    if x in w.slots then w.slots[x] else Idle
  }

  function Handles(c: Config, t: Task): Host {
    Host(t.at.host, c)
  }

  predicate HasUid(h: History, k: SvcKey, n: int, uid: string) {
    0 <= n < |Hist(h, k)| && Hist(h, k)[n].Present? && Hist(h, k)[n].svc.uid == uid
  }

  ghost predicate Known(h: History, uid: string) {
    exists k, n :: HasUid(h, k, n, uid)
  }

  function Now(h: History, k: SvcKey): Version
    requires Hist(h, k) != []
  {
    Hist(h, k)[|Hist(h, k)| - 1]
  }

  predicate LiveAt(h: History, k: SvcKey, uid: string) {
    Hist(h, k) != [] && Now(h, k).Present? && Now(h, k).svc.uid == uid && !Now(h, k).svc.deleting
  }

  /** A service with this UID exists on its host and is not being deleted. */
  ghost predicate Live(h: History, uid: string) {
    exists k :: LiveAt(h, k, uid)
  }

  /** The informer's cache: some version, not newer than the host's. */
  function CacheOf(w: World, k: SvcKey): Cached {
    if Seen(w, k) < |Hist(w.hist, k)| then
      match Hist(w.hist, k)[Seen(w, k)]
      case Absent => Missing
      case Present(svc) => Found(svc)
    else Missing
  }

  /** What a host may do to a key: create a service with a UID never used before, change or mark the service
      it has, or remove it. Deletion timestamps are never taken back. */
  ghost predicate MayBecome(h: History, k: SvcKey, v: Version) {
    Hist(h, k) != [] && (v.Present? ==> KeyOf(v.svc) == k.key) &&
    match Now(h, k)
    case Absent => v.Present? && !v.svc.deleting && v.svc.uid != "" && !Known(h, v.svc.uid)
    case Present(svc) => v.Present? ==> v.svc.uid == svc.uid && (svc.deleting ==> v.svc.deleting)
  }

  function Grown(h: History, k: SvcKey, v: Version): History {
    h[k := Hist(h, k) + [v]]
  }

  ghost predicate Can(c: Config, w: World, e: Event) {
    match e
    case HostChange(k, v) => MayBecome(w.hist, k, v)
    case Observe(k, n) => Seen(w, k) < n < |Hist(w.hist, k)|
    case Take(x, t) =>
      SlotOf(w, x).Idle? && t in w.tasks && forall y :: SlotOf(w, y).Idle? || SlotOf(w, y).task != t
    case Look(x, _) => SlotOf(w, x).Taken?
    case Call(x, a) =>
      SlotOf(w, x).Working? && Answers(Asks(Handles(c, SlotOf(w, x).task), SlotOf(w, x).pc), a) && Enabled(w.store, a)
    case Release(x) => SlotOf(w, x).Working? && SlotOf(w, x).pc.Finished?
    case Outside(_) => true
  }

  /** An observed service becomes a queue item; the delete event's item has the UID of an earlier one. */
  function NewTasks(k: SvcKey, v: Version): set<Task> {
    match v
    case Absent => {}
    case Present(svc) => {Task(k, svc.uid)}
  }

  function PutSlot(w: World, x: nat, slot: Slot): World {
    w.(slots := w.slots[x := slot])
  }

  ghost function Do(c: Config, w: World, e: Event): World
    requires Can(c, w, e)
  {
    match e
    case HostChange(k, v) => w.(hist := Grown(w.hist, k, v))
    case Observe(k, n) => w.(seen := w.seen[k := n], tasks := w.tasks + NewTasks(k, Hist(w.hist, k)[n]))
    case Take(x, t) => PutSlot(w, x, Taken(t))
    case Look(x, broken) =>
      var t := SlotOf(w, x).task;
      var cached := if broken then CacheError else CacheOf(w, t.at);
      PutSlot(w, x, Working(t, cached, Start(Item(t.at.key, t.uid), cached)))
    case Call(x, a) =>
      var slot := SlotOf(w, x);
      PutSlot(w, x, slot.(pc := Next(Handles(c, slot.task), slot.pc, a))).(store := Apply(w.store, a))
    case Release(x) => PutSlot(w, x, Idle)
    case Outside(after) => w.(store := after)
  }

  // ---- the history invariant ----

  /** A UID stays with one key. */
  ghost predicate OneKeyPerUid(h: History) {
    forall k, i, k', j, uid :: HasUid(h, k, i, uid) && HasUid(h, k', j, uid) ==> k == k'
  }

  /** The versions with one UID follow each other without a gap. */
  ghost predicate NoReturn(h: History) {
    forall k, i, m, j, uid :: HasUid(h, k, i, uid) && HasUid(h, k, j, uid) && i <= m <= j ==> HasUid(h, k, m, uid)
  }

  /** A deletion timestamp is never taken back. */
  ghost predicate DeletionStays(h: History) {
    forall k, i, j, uid :: HasUid(h, k, i, uid) && HasUid(h, k, j, uid) && i <= j && Hist(h, k)[i].svc.deleting
      ==> Hist(h, k)[j].svc.deleting
  }

  ghost predicate ProperVersions(h: History) {
    (forall k :: Hist(h, k) != [])
    && (forall k, n, uid :: HasUid(h, k, n, uid) ==> uid != "" && KeyOf(Hist(h, k)[n].svc) == k.key)
  }

  ghost predicate HistoryOk(h: History) {
    ProperVersions(h) && OneKeyPerUid(h) && NoReturn(h) && DeletionStays(h)
  }

  /** The UID belonged to a service that is gone or being deleted; it will never belong to a live one again. */
  ghost predicate Over(h: History, uid: string) {
    Known(h, uid) && !Live(h, uid)
  }

  predicate CleansUp(slot: Slot) {
    slot.Working? && (slot.pc.CleanupList? || slot.pc.CleanupDelete?)
  }

  /** The informer saw this item's UID under this item's key. */
  ghost predicate WasSeen(h: History, seen: nat, t: Task) {
    exists n :: n <= seen && HasUid(h, t.at, n, t.uid)
  }

  ghost predicate Inv(w: World) {
    && HistoryOk(w.hist)
    && (forall k :: Seen(w, k) < |Hist(w.hist, k)|)
    && (forall t | t in w.tasks :: WasSeen(w.hist, Seen(w, t.at), t))
    && (forall x :: SlotOf(w, x).Idle? || SlotOf(w, x).task in w.tasks)
    && (forall x :: CleansUp(SlotOf(w, x)) ==> Over(w.hist, SlotOf(w, x).pc.uid))
  }

  /** Where a UID can be after a host's change: where it was, or at the new version. */
  lemma UidsAfter(h: History, k: SvcKey, v: Version, k': SvcKey, n: int, uid: string)
    ensures HasUid(Grown(h, k, v), k', n, uid) <==>
      HasUid(h, k', n, uid) || (k' == k && n == |Hist(h, k)| && v.Present? && v.svc.uid == uid)
    ensures HasUid(h, k', n, uid) ==> Hist(Grown(h, k, v), k')[n] == Hist(h, k')[n]
  {
  }

  /** The newest version carries a UID that is new altogether, or the one just before it. */
  lemma NewestUid(h: History, k: SvcKey, v: Version, k': SvcKey, i: int)
    requires HistoryOk(h) && MayBecome(h, k, v) && v.Present? && HasUid(h, k', i, v.svc.uid)
    ensures k' == k && HasUid(h, k, |Hist(h, k)| - 1, v.svc.uid)
    ensures Now(h, k).svc.deleting ==> v.svc.deleting
  {
    assert Now(h, k).Present?;
    assert HasUid(h, k, |Hist(h, k)| - 1, v.svc.uid);
  }

  lemma OneKeyKept(h: History, k: SvcKey, v: Version)
    requires HistoryOk(h) && MayBecome(h, k, v)
    ensures OneKeyPerUid(Grown(h, k, v))
  {
    hide NoReturn, DeletionStays, MayBecome, HasUid;
    var h' := Grown(h, k, v);
    forall a, i, b, j, uid | HasUid(h', a, i, uid) && HasUid(h', b, j, uid)
      ensures a == b
    {
      UidsAfter(h, k, v, a, i, uid);
      UidsAfter(h, k, v, b, j, uid);
      if !HasUid(h, a, i, uid) && HasUid(h, b, j, uid) {
        NewestUid(h, k, v, b, j);
      }
      if HasUid(h, a, i, uid) && !HasUid(h, b, j, uid) {
        NewestUid(h, k, v, a, i);
      }
    }
  }

  lemma NoReturnKept(h: History, k: SvcKey, v: Version)
    requires HistoryOk(h) && MayBecome(h, k, v)
    ensures NoReturn(Grown(h, k, v))
  {
    hide OneKeyPerUid, DeletionStays, MayBecome;
    var h' := Grown(h, k, v);
    forall a, i, m, j, uid | HasUid(h', a, i, uid) && HasUid(h', a, j, uid) && i <= m <= j
      ensures HasUid(h', a, m, uid)
    {
      UidsAfter(h, k, v, a, i, uid);
      UidsAfter(h, k, v, a, j, uid);
      UidsAfter(h, k, v, a, m, uid);
      if HasUid(h, a, i, uid) && !HasUid(h, a, j, uid) && m < j {
        NewestUid(h, k, v, a, i);
      }
    }
  }

  lemma DeletionKept(h: History, k: SvcKey, v: Version)
    requires HistoryOk(h) && MayBecome(h, k, v)
    ensures DeletionStays(Grown(h, k, v))
  {
    hide OneKeyPerUid, NoReturn, MayBecome;
    var h' := Grown(h, k, v);
    forall a, i, j, uid | HasUid(h', a, i, uid) && HasUid(h', a, j, uid) && i <= j && Hist(h', a)[i].svc.deleting
      ensures Hist(h', a)[j].svc.deleting
    {
      UidsAfter(h, k, v, a, i, uid);
      UidsAfter(h, k, v, a, j, uid);
      if HasUid(h, a, i, uid) && !HasUid(h, a, j, uid) {
        NewestUid(h, k, v, a, i);
      }
    }
  }

  lemma ProperVersionsKept(h: History, k: SvcKey, v: Version)
    requires ProperVersions(h) && MayBecome(h, k, v)
    ensures ProperVersions(Grown(h, k, v))
  {
    var h' := Grown(h, k, v);
    assert Now(h, k).Present? ==> HasUid(h, k, |Hist(h, k)| - 1, Now(h, k).svc.uid);
    assert forall a :: |Hist(h', a)| >= |Hist(h, a)| && |Hist(h, a)| > 0;
    forall a, n, uid | HasUid(h', a, n, uid)
      ensures uid != "" && KeyOf(Hist(h', a)[n].svc) == a.key
    {
      UidsAfter(h, k, v, a, n, uid);
      assert HasUid(h, a, n, uid) ==> Hist(h', a)[n] == Hist(h, a)[n];
    }
  }

  lemma HistoryKept(h: History, k: SvcKey, v: Version)
    requires HistoryOk(h) && MayBecome(h, k, v)
    ensures HistoryOk(Grown(h, k, v))
  {
    hide OneKeyPerUid, NoReturn, DeletionStays, ProperVersions, MayBecome;
    ProperVersionsKept(h, k, v);
    OneKeyKept(h, k, v);
    NoReturnKept(h, k, v);
    DeletionKept(h, k, v);
  }

  /** What is over stays over: UIDs are not used again and deletion timestamps stay. */
  lemma OverKept(h: History, k: SvcKey, v: Version, uid: string)
    requires HistoryOk(h) && MayBecome(h, k, v) && Over(h, uid)
    ensures Over(Grown(h, k, v), uid)
  {
    var h' := Grown(h, k, v);
    var a, n :| HasUid(h, a, n, uid);
    UidsAfter(h, k, v, a, n, uid);
    assert !LiveAt(h, k, uid);
    forall b
      ensures !LiveAt(h', b, uid)
    {
      assert b != k ==> (LiveAt(h', b, uid) <==> LiveAt(h, b, uid));
      assert Now(h', k) == v;
    }
  }

  /** The inductive heart of the cleanup's safety: a queue item's UID was once seen under its key, so a key
      missing from a cache that only moves forward means that this UID is over. */
  lemma CacheMissMeansOver(w: World, t: Task)
    requires Inv(w) && t in w.tasks && CacheOf(w, t.at) == Missing
    ensures Over(w.hist, t.uid)
  {
    assert WasSeen(w.hist, Seen(w, t.at), t);
    var n :| n <= Seen(w, t.at) && HasUid(w.hist, t.at, n, t.uid);
    assert !HasUid(w.hist, t.at, Seen(w, t.at), t.uid);
    forall k
      ensures !LiveAt(w.hist, k, t.uid)
    {
      assert LiveAt(w.hist, k, t.uid) ==> HasUid(w.hist, k, |Hist(w.hist, k)| - 1, t.uid);
    }
  }

  lemma CachedDeletionMeansOver(w: World, k: SvcKey, svc: Service)
    requires Inv(w) && CacheOf(w, k) == Found(svc) && svc.deleting
    ensures Over(w.hist, svc.uid)
  {
    assert HasUid(w.hist, k, Seen(w, k), svc.uid);
    forall a
      ensures !LiveAt(w.hist, a, svc.uid)
    {
      assert LiveAt(w.hist, a, svc.uid) ==> HasUid(w.hist, a, |Hist(w.hist, a)| - 1, svc.uid);
    }
  }

  lemma CleanupStaysWithUid(h: Host, pc: Pc, a: Action)
    ensures var to := Next(h, pc, a);
      to.CleanupList? || to.CleanupDelete? ==> (pc.CleanupList? || pc.CleanupDelete?) && to.uid == pc.uid
  {
    hide JobScan;
    if !pc.CleanupList? && !pc.CleanupDelete? {
      HandlerFacts.NoWayToCleanup(h, pc, a);
    }
  }

  lemma HostChangeKept(c: Config, w: World, e: Event)
    requires Inv(w) && e.HostChange? && Can(c, w, e)
    ensures Inv(Do(c, w, e))
  {
    hide HistoryOk, Over, MayBecome, HasUid;
    var w' := Do(c, w, e);
    HistoryKept(w.hist, e.at, e.version);
    assert forall k :: |Hist(w'.hist, k)| >= |Hist(w.hist, k)|;
    forall t | t in w'.tasks
      ensures WasSeen(w'.hist, Seen(w', t.at), t)
    {
      assert WasSeen(w.hist, Seen(w, t.at), t);
      var n :| n <= Seen(w, t.at) && HasUid(w.hist, t.at, n, t.uid);
      UidsAfter(w.hist, e.at, e.version, t.at, n, t.uid);
    }
    forall x | CleansUp(SlotOf(w', x))
      ensures Over(w'.hist, SlotOf(w', x).pc.uid)
    {
      assert SlotOf(w', x) == SlotOf(w, x);
      OverKept(w.hist, e.at, e.version, SlotOf(w, x).pc.uid);
    }
    assert forall x :: SlotOf(w', x) == SlotOf(w, x);
  }

  lemma ObserveKept(c: Config, w: World, e: Event)
    requires Inv(w) && e.Observe? && Can(c, w, e)
    ensures Inv(Do(c, w, e))
  {
    hide HistoryOk, Over;
    var w' := Do(c, w, e);
    assert forall x :: SlotOf(w', x) == SlotOf(w, x);
    forall t | t in w'.tasks
      ensures WasSeen(w'.hist, Seen(w', t.at), t)
    {
      if t in w.tasks {
        assert WasSeen(w.hist, Seen(w, t.at), t);
      } else {
        assert HasUid(w'.hist, t.at, e.upTo, t.uid);
      }
    }
  }

  lemma LookIsSafe(c: Config, w: World, e: Event)
    requires Inv(w) && e.Look? && Can(c, w, e)
    ensures var slot := SlotOf(Do(c, w, e), e.worker); CleansUp(slot) ==> Over(w.hist, slot.pc.uid)
  {
    hide HistoryOk, Over;
    var t := SlotOf(w, e.worker).task;
    var cached := CacheOf(w, t.at);
    if !e.broken {
      if cached == Missing {
        CacheMissMeansOver(w, t);
      } else if cached.svc.deleting {
        CachedDeletionMeansOver(w, t.at, cached.svc);
      }
    }
  }

  lemma WorkerKept(c: Config, w: World, e: Event)
    requires Inv(w) && !e.HostChange? && !e.Observe? && Can(c, w, e)
    ensures Inv(Do(c, w, e))
  {
    hide HistoryOk, Over, WasSeen, Next, Asks, Start;
    var w' := Do(c, w, e);
    forall x
      ensures CleansUp(SlotOf(w', x)) ==> Over(w'.hist, SlotOf(w', x).pc.uid)
      ensures SlotOf(w', x).Idle? || SlotOf(w', x).task in w'.tasks
    {
      if e.Look? && e.worker == x {
        LookIsSafe(c, w, e);
      } else if e.Call? && e.worker == x {
        CleanupStaysWithUid(Handles(c, SlotOf(w, x).task), SlotOf(w, x).pc, e.a);
      } else if e.Take? && e.worker == x {
      } else {
        assert SlotOf(w', x) == SlotOf(w, x) || SlotOf(w', x).Idle?;
      }
    }
  }

  lemma InvKept(c: Config, w: World, e: Event)
    requires Inv(w) && Can(c, w, e)
    ensures Inv(Do(c, w, e))
  {
    hide Inv, Can, Do;
    if e.HostChange? {
      HostChangeKept(c, w, e);
    } else if e.Observe? {
      ObserveKept(c, w, e);
    } else {
      WorkerKept(c, w, e);
    }
  }

  // ---- runs ----

  /** The informers start with empty caches and the queues and workers with nothing to do; hosts and API
      servers hold whatever they hold. */
  ghost predicate Init(w: World) {
    && HistoryOk(w.hist)
    && (forall k :: Hist(w.hist, k)[0] == Absent)
    && w.seen == map[] && w.tasks == {} && w.slots == map[]
  }

  /** The events can happen one after the other, each allowed by `g` in the world it happens in. */
  ghost predicate Ran(c: Config, w: World, run: seq<Event>, g: (World, Event) -> bool)
    decreases |run|, 0
  {
    run == [] ||
    (var before := run[..|run| - 1];
     Ran(c, w, before, g) && Can(c, End(c, w, before, g), run[|run| - 1]) && g(End(c, w, before, g), run[|run| - 1]))
  }

  ghost function End(c: Config, w: World, run: seq<Event>, g: (World, Event) -> bool): World
    requires Ran(c, w, run, g)
    decreases |run|, 1
  {
    if run == [] then w else Do(c, End(c, w, run[..|run| - 1], g), run[|run| - 1])
  }

  lemma InitInv(w: World)
    requires Init(w)
    ensures Inv(w)
  {
  }

  lemma {:induction false} InvAlways(c: Config, w: World, run: seq<Event>, g: (World, Event) -> bool)
    requires Init(w) && Ran(c, w, run, g)
    ensures Inv(End(c, w, run, g))
    decreases |run|
  {
    hide Inv, Init, Can, Do;
    if run == [] {
      InitInv(w);
    } else {
      InvAlways(c, w, run[..|run| - 1], g);
      InvKept(c, End(c, w, run[..|run| - 1], g), run[|run| - 1]);
    }
  }

  /** In every run, whatever the lag of the caches and the order of events: a worker that is cleaning up for a
      UID does so only when no live service has it, and none ever will again. */
  lemma CleanupsAreForDeadServices(c: Config, w: World, run: seq<Event>, g: (World, Event) -> bool, x: nat)
    requires Init(w) && Ran(c, w, run, g) && CleansUp(SlotOf(End(c, w, run, g), x))
    ensures Over(End(c, w, run, g).hist, SlotOf(End(c, w, run, g), x).pc.uid)
  {
    InvAlways(c, w, run, g);
  }
}
