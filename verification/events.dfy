/** From what an informer sees on its host to the items of the queue: the items that `Lifecycle` hands to workers are
    those which the event handlers of `Queue` put in. */
module Events {
  import opened Text
  import opened Api
  import opened Calls
  import opened Constants
  import opened Config
  import opened Errors
  import opened Naming
  import opened HandlerProgram
  import opened HandlerFacts
  import opened Lifecycle
  import Queue

  /** What the informer hands over of a service. */
  function NoticeOf(svc: Service): Queue.Notice {
    Queue.ServiceNotice(Some(KeyOf(svc)), svc.uid)
  }

  /** An informer whose cache held `was` under a key hands this over when it comes to the version `v`: an add or update
      event, or where nothing is left a delete event with the service it last knew or its tombstone. */
  predicate HandsOver(was: Cached, v: Version, deleted: bool, n: Queue.Notice) {
    match v
    case Present(svc) => !deleted && n == NoticeOf(svc)
    case Absent => deleted && was.Found? && (n == NoticeOf(was.svc) || n == Queue.Tombstone(NoticeOf(was.svc)))
  }

  /** The event handlers put this in the queue of the key's host when the informer comes to the version `v`. */
  ghost predicate PutIn(was: Cached, v: Version, k: SvcKey, t: Task) {
    t.at == k && exists deleted, n ::
      HandsOver(was, v, deleted, n) && Queue.EventItem(deleted, n) == Some(Item(k.key, t.uid))
  }

  /** What the cache holds has been put into the queue. */
  ghost predicate CachedInTasks(w: World) {
    forall k :: CacheOf(w, k).Found? ==> Task(k, CacheOf(w, k).svc.uid) in w.tasks
  }

  lemma CachedInTasksKept(c: Config, w: World, e: Event)
    requires Inv(w) && CachedInTasks(w) && Can(c, w, e)
    ensures CachedInTasks(Do(c, w, e))
  {
    hide HistoryOk, WasSeen, CleansUp, Over, MayBecome, Next, Asks, Start;
    var w' := Do(c, w, e);
    forall k | CacheOf(w', k).Found?
      ensures Task(k, CacheOf(w', k).svc.uid) in w'.tasks
    {
      assert Seen(w, k) < |Hist(w.hist, k)|;
      if !(e.Observe? && e.at == k) {
        assert CacheOf(w', k) == CacheOf(w, k);
      }
    }
  }

  lemma {:induction false} AlwaysCachedInTasks(c: Config, w: World, run: seq<Event>, g: (World, Event) -> bool)
    requires Init(w) && Ran(c, w, run, g)
    ensures CachedInTasks(End(c, w, run, g))
    decreases |run|
  {
    hide Inv, Can, Do;
    if run != [] {
      AlwaysCachedInTasks(c, w, run[..|run| - 1], g);
      InvAlways(c, w, run[..|run| - 1], g);
      CachedInTasksKept(c, End(c, w, run[..|run| - 1], g), run[|run| - 1]);
    }
  }

  lemma KeysMatch(w: World, k: SvcKey, n: nat)
    requires Inv(w) && n < |Hist(w.hist, k)|
    ensures Hist(w.hist, k)[n].Present? ==> KeyOf(Hist(w.hist, k)[n].svc) == k.key
    ensures CacheOf(w, k).Found? ==> KeyOf(CacheOf(w, k).svc) == k.key
  {
    hide OneKeyPerUid, NoReturn, DeletionStays;
    assert Hist(w.hist, k)[n].Present? ==> HasUid(w.hist, k, n, Hist(w.hist, k)[n].svc.uid);
    assert CacheOf(w, k).Found? ==> HasUid(w.hist, k, Seen(w, k), CacheOf(w, k).svc.uid);
  }

  /** In every run: what an informer's step adds to the items is exactly what the event handlers put in for the event
      it hands over; for a delete event, whose item was put in before under the UID last known. */
  lemma TasksAreEventItems(c: Config, w0: World, run: seq<Event>, g: (World, Event) -> bool, k: SvcKey, n: nat, t: Task)
    requires Init(w0) && Ran(c, w0, run, g) && Can(c, End(c, w0, run, g), Observe(k, n))
    ensures var w := End(c, w0, run, g);
      t in Do(c, w, Observe(k, n)).tasks <==> t in w.tasks || PutIn(CacheOf(w, k), Hist(w.hist, k)[n], k, t)
  {
    var w := End(c, w0, run, g);
    InvAlways(c, w0, run, g);
    AlwaysCachedInTasks(c, w0, run, g);
    KeysMatch(w, k, n);
    hide Init, Ran, End, Inv, KeyOf;
    match Hist(w.hist, k)[n]
    case Present(svc) =>
      assert Queue.EventItem(false, NoticeOf(svc)) == Some(Item(k.key, svc.uid));
      assert HandsOver(CacheOf(w, k), Present(svc), false, NoticeOf(svc));
    case Absent =>
      assert CacheOf(w, k).Found? ==> Task(k, CacheOf(w, k).svc.uid) in w.tasks;
  }

  /** And every informer's step that shows a change hands something over, so that nothing goes unnoticed. */
  lemma EveryChangeIsHandedOver(c: Config, w0: World, run: seq<Event>, g: (World, Event) -> bool, k: SvcKey, n: nat)
    requires Init(w0) && Ran(c, w0, run, g) && Can(c, End(c, w0, run, g), Observe(k, n))
    ensures var w := End(c, w0, run, g);
      (Hist(w.hist, k)[n].Present? || CacheOf(w, k).Found?)
      <==> exists t :: PutIn(CacheOf(w, k), Hist(w.hist, k)[n], k, t)
  {
    var w := End(c, w0, run, g);
    InvAlways(c, w0, run, g);
    KeysMatch(w, k, n);
    hide Init, Ran, End, Inv, KeyOf;
    match Hist(w.hist, k)[n]
    case Present(svc) =>
      assert HandsOver(CacheOf(w, k), Present(svc), false, NoticeOf(svc));
      assert PutIn(CacheOf(w, k), Present(svc), k, Task(k, svc.uid));
    case Absent =>
      if CacheOf(w, k).Found? {
        var svc := CacheOf(w, k).svc;
        assert HandsOver(CacheOf(w, k), Absent, true, NoticeOf(svc));
        assert PutIn(CacheOf(w, k), Absent, k, Task(k, svc.uid));
      }
  }

  /** The delete event of a service, or its tombstone, asks for an item with which a worker that finds the key missing
      from the cache first of all looks for the cluster of that service, by its UID. */
  lemma DeletionLooksForCluster(h: Host, svc: Service, n: Queue.Notice, run: seq<Action>, err: Option<Error>)
    requires svc.uid != "" && (n == NoticeOf(svc) || n == Queue.Tombstone(NoticeOf(svc)))
    requires Queue.EventItem(true, n).Some?
    requires Walk(Worker(h), Start(Queue.EventItem(true, n).value, Missing), run, Finished(err))
    ensures run != [] && run[0].List?
    ensures run[0].query == Query(LOCAL, ProvisioningCluster, None, HasValue(LABEL_SERVICE_UID, svc.uid))
  {
    hide Follows, Reached, Next, Walk, KeyOf;
    LoopStep(h, CleanupList(svc.uid), run, err);
  }
}
