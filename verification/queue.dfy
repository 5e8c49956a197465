/** The queue in front of the service handler (pkg/queue): client-go's rate-limiting work queue given by its
    queue/dirty/processing discipline, the event handlers that fill it and the workers that drain it. */
module Queue {
  import opened Text
  import opened Errors
  import opened HandlerProgram
  import Api
  import Calls
  import HandlerFacts
  import ServiceHandler

  /** `delayed` are the items waiting for a timer that adds them again; `failures` is the rate limiter's count. */
  datatype State = State(queue: seq<Item>, dirty: set<Item>, processing: set<Item>, delayed: set<Item>,
      failures: map<Item, nat>)

  const EMPTY := State([], {}, {}, {}, map[])

  function Failures(q: State, item: Item): nat {
    if item in q.failures then q.failures[item] else 0
  }

  function Added(q: State, item: Item): State {
    if item in q.dirty then q
    else if item in q.processing then q.(dirty := q.dirty + {item})
    else q.(dirty := q.dirty + {item}, queue := q.queue + [item])
  }

  function Gotten(q: State): State
    requires q.queue != []
  {
    q.(queue := q.queue[1..], processing := q.processing + {q.queue[0]}, dirty := q.dirty - {q.queue[0]})
  }

  function Released(q: State, item: Item): State {
    q.(processing := q.processing - {item}, queue := if item in q.dirty then q.queue + [item] else q.queue)
  }

  function Forgotten(q: State, item: Item): State {
    q.(failures := q.failures - {item})
  }

  function Delayed(q: State, item: Item): State {
    q.(delayed := q.delayed + {item})
  }

  function RateLimited(q: State, item: Item): State {
    Delayed(q.(failures := q.failures[item := Failures(q, item) + 1]), item)
  }

  /** The queue after a reconcile ended with this error: success forgets the item, waiting forgets it and adds
      it later, any other error counts as a failure and adds it later. */
  function Handled(q: State, item: Item, err: Option<Error>): State {
    match err
    case None => Forgotten(q, item)
    case Some(e) => if IsWaiting(e) then Delayed(Forgotten(q, item), item) else RateLimited(q, item)
  }

  class WorkQueue {
    var queue: seq<Item>
    var dirty: set<Item>
    var processing: set<Item>
    var delayed: set<Item>
    var failures: map<Item, nat>

    constructor ()
      ensures Value() == EMPTY
    {
      queue, dirty, processing, delayed, failures := [], {}, {}, {}, map[];
    }

    function Value(): State
      reads this
    {
      State(queue, dirty, processing, delayed, failures)
    }

    method Add(item: Item)
      modifies this
      ensures Value() == Added(old(Value()), item)
    {
      if item in dirty {
        return;
      }
      dirty := dirty + {item};
      if item in processing {
        return;
      }
      queue := queue + [item];
    }

    method Get() returns (item: Option<Item>)
      modifies this
      ensures old(queue) == [] ==> item == None && Value() == old(Value())
      ensures old(queue) != [] ==> item == Some(old(queue)[0]) && Value() == Gotten(old(Value()))
    {
      if queue == [] {
        return None;
      }
      item := Some(queue[0]);
      processing := processing + {queue[0]};
      dirty := dirty - {queue[0]};
      queue := queue[1..];
    }

    method Done(item: Item)
      modifies this
      ensures Value() == Released(old(Value()), item)
    {
      processing := processing - {item};
      if item in dirty {
        queue := queue + [item];
      }
    }

    method Forget(item: Item)
      modifies this`failures
      ensures Value() == Forgotten(old(Value()), item)
    {
      failures := failures - {item};
    }

    method AddAfter(item: Item)
      modifies this`delayed
      ensures Value() == Delayed(old(Value()), item)
    {
      delayed := delayed + {item};
    }

    method AddRateLimited(item: Item)
      modifies this`failures, this`delayed
      ensures Value() == RateLimited(old(Value()), item)
    {
      failures := failures[item := (if item in failures then failures[item] else 0) + 1];
      delayed := delayed + {item};
    }
  }

  /** What an informer hands to its event handlers; `key` is None when the object has no usable metadata. */
  datatype Notice = ServiceNotice(key: Option<string>, uid: string)
                  | OtherNotice(key: Option<string>)
                  | Tombstone(last: Notice)

  /** The item an add or update event asks for. */
  function ChangedItem(n: Notice): Option<Item> {
    match n
    case ServiceNotice(Some(key), uid) => Some(Item(key, uid))
    case OtherNotice(Some(key)) => Some(Item(key, ""))
    case _ => None
  }

  /** The item a delete event asks for: the deleted service, or the last one known from a tombstone. */
  function DeletedItem(n: Notice): Option<Item> {
    match n
    case ServiceNotice(Some(key), uid) => Some(Item(key, uid))
    case Tombstone(ServiceNotice(Some(key), uid)) => Some(Item(key, uid))
    case _ => None
  }

  /** The item has become due: it is dirty and, unless a worker has it, queued; all other items are as before, and in
      the order they were in. */
  ghost predicate Queued(before: State, after: State, item: Item) {
    && item in after.dirty && (item in after.queue || item in before.processing)
    && (forall i | i != item :: (i in after.dirty <==> i in before.dirty) && (i in after.queue <==> i in before.queue))
    && before.queue <= after.queue && |after.queue| <= |before.queue| + 1
    && after == before.(dirty := after.dirty, queue := after.queue)
  }

  lemma AddedIsQueued(q: State, item: Item)
    requires QueueOk(q)
    ensures Queued(q, Added(q, item), item)
  {
    assert item in q.queue <==> item in q.dirty && item !in q.processing;
  }

  /** An add or update event makes due the item of the service with its UID, or of any other object without one. */
  lemma ChangesAreQueued(q: State, n: Notice)
    ensures forall key, uid | QueueOk(q) && n == ServiceNotice(Some(key), uid) ::
      Queued(q, AddedIfAny(q, ChangedItem(n)), Item(key, uid))
    ensures forall key | QueueOk(q) && n == OtherNotice(Some(key)) ::
      Queued(q, AddedIfAny(q, ChangedItem(n)), Item(key, ""))
    ensures n.Tombstone? || n.key.None? ==> AddedIfAny(q, ChangedItem(n)) == q
  {
    hide Queued, QueueOk, Added;
    forall item | QueueOk(q)
      ensures Queued(q, Added(q, item), item)
    {
      AddedIsQueued(q, item);
    }
  }

  /** The delete event of a service, or its tombstone, makes due the item of the service with its UID; any other
      delete event changes nothing. */
  lemma DeletionsAreQueued(q: State, n: Notice)
    ensures forall key, uid | QueueOk(q) && OfService(n, key, uid) ::
      Queued(q, AddedIfAny(q, DeletedItem(n)), Item(key, uid))
    ensures (forall key, uid :: !OfService(n, key, uid)) ==> AddedIfAny(q, DeletedItem(n)) == q
  {
    hide Queued, QueueOk, Added;
    forall item | QueueOk(q)
      ensures Queued(q, Added(q, item), item)
    {
      AddedIsQueued(q, item);
    }
    match n
    case ServiceNotice(Some(key), uid) => assert OfService(n, key, uid);
    case Tombstone(ServiceNotice(Some(key), uid)) => assert OfService(n, key, uid);
    case _ =>
  }

  /** The object of a delete event is the service, or its tombstone is all that is left of it. */
  predicate OfService(n: Notice, key: string, uid: string) {
    n == ServiceNotice(Some(key), uid) || n == Tombstone(ServiceNotice(Some(key), uid))
  }

  function AddedIfAny(q: State, item: Option<Item>): State {
    match item
    case None => q
    case Some(i) => Added(q, i)
  }

  /** The event handler and workers in front of one host's service handler. */
  class Handler {
    const queue: WorkQueue
    const reconciler: ServiceHandler.Handler
    const api: Api.ApiServer
    const waitErrs: seq<Option<Error>>

    constructor (queue: WorkQueue, reconciler: ServiceHandler.Handler, api: Api.ApiServer)
      ensures this.queue == queue && this.reconciler == reconciler && this.api == api
      ensures waitErrs == [Some(RancherResourcesPending), Some(AgentInstallJobInProgress)]
    {
      this.queue := queue;
      this.reconciler := reconciler;
      this.api := api;
      waitErrs := [Some(RancherResourcesPending), Some(AgentInstallJobInProgress)];
    }

    method OnAdd(obj: Notice)
      modifies queue
      ensures queue.Value() == AddedIfAny(old(queue.Value()), ChangedItem(obj))
      ensures forall key, uid | QueueOk(old(queue.Value())) && obj == ServiceNotice(Some(key), uid) ::
        Queued(old(queue.Value()), queue.Value(), Item(key, uid))
      ensures obj.Tombstone? || obj.key.None? ==> queue.Value() == old(queue.Value())
    {
      hide QueueOk, Queued;
      ChangesAreQueued(queue.Value(), obj);
      var uid := "";
      var key: Option<string>;
      match obj {
        case ServiceNotice(k, u) => key, uid := k, u;
        case OtherNotice(k) => key := k;
        case Tombstone(_) => key := None;
      }
      if key.None? {
        return;
      }
      queue.Add(Item(key.value, uid));
    }

    method OnDelete(obj: Notice)
      modifies queue
      ensures queue.Value() == AddedIfAny(old(queue.Value()), DeletedItem(obj))
      ensures forall key, uid | QueueOk(old(queue.Value())) && OfService(obj, key, uid) ::
        Queued(old(queue.Value()), queue.Value(), Item(key, uid))
      ensures (forall key, uid :: !OfService(obj, key, uid)) ==> queue.Value() == old(queue.Value())
    {
      hide QueueOk, Queued;
      DeletionsAreQueued(queue.Value(), obj);
      var service := obj;
      if !obj.ServiceNotice? {
        if !obj.Tombstone? {
          return;
        }
        service := obj.last;
        if !service.ServiceNotice? {
          return;
        }
      }
      if service.key.None? {
        return;
      }
      queue.Add(Item(service.key.value, service.uid));
    }

    method HandleErr(err: Option<Error>, item: Item)
      requires waitErrs == [Some(RancherResourcesPending), Some(AgentInstallJobInProgress)]
      modifies queue
      ensures queue.Value() == Handled(old(queue.Value()), item, err)
    {
      if err.None? {
        queue.Forget(item);
        return;
      }
      var isWaiting := false;
      for i := 0 to |waitErrs|
        invariant !isWaiting
        invariant forall j | 0 <= j < i :: waitErrs[j].Some? ==> !Is(err.value, waitErrs[j].value)
      {
        if waitErrs[i].Some? && Is(err.value, waitErrs[i].value) {
          isWaiting := true;
          break;
        }
      }
      assert waitErrs[0] == Some(RancherResourcesPending) && waitErrs[1] == Some(AgentInstallJobInProgress);
      assert isWaiting <==> IsWaiting(err.value);
      if isWaiting {
        queue.Forget(item);
        queue.AddAfter(item);
      } else {
        queue.AddRateLimited(item);
      }
    }

    /** One turn of a worker: it takes the front item, reconciles it, handles the outcome and releases the item.
        False when there was nothing to do; `cacheBroken` says that the look into the cache fails. */
    method ProcessNextWorkItem(cacheBroken: bool)
      returns (worked: bool, err: Option<Error>, ghost cached: Cached, ghost run: seq<Api.Action>)
      requires waitErrs == [Some(RancherResourcesPending), Some(AgentInstallJobInProgress)] && api.Valid()
      modifies queue, api
      ensures api.Valid() && api.log == old(api.log) + run
      ensures worked <==> old(queue.queue) != []
      ensures worked ==> (var item := old(queue.queue)[0];
        && cached == (if cacheBroken then CacheError else reconciler.Cache(item.key))
        && Calls.Walk(Worker(reconciler.host), HandlerProgram.Start(item, cached), run, Finished(err))
        && queue.Value() == Released(Handled(Gotten(old(queue.Value())), item, err), item))
      ensures !worked ==> queue.Value() == old(queue.Value()) && run == []
    {
      err, run := None, [];
      var item := queue.Get();
      if item.None? {
        return false, None, Missing, [];
      }
      err, cached, run := reconciler.Reconcile(api, item.value, cacheBroken);
      HandleErr(err, item.value);
      queue.Done(item.value);
      worked := true;
    }
  }

  // ---- all workers at once ----

  /** A worker between `Get` and the end of the reconcile, or between `handleErr` and `Done`. */
  datatype Stage = Resting | Reconciling(item: Item, began: nat) | Settling(item: Item)

  datatype Note = Outcome(item: Item, err: Option<Error>)

  /** `due` is the time of the newest event or failed reconcile of an item; `covered` the time at which its last
      successful reconcile began; `outcomes` all reconcile results, oldest first. */
  datatype System = System(q: State, stages: map<nat, Stage>, clock: nat, due: map<Item, nat>, covered: map<Item, nat>,
                           outcomes: seq<Note>)

  datatype Step = Notify(deleted: bool, n: Notice) | Fire(item: Item) | Begin(worker: nat)
                | Finish(worker: nat, err: Option<Error>) | End(worker: nat)

  const START := System(EMPTY, map[], 0, map[], map[], [])

  function StageOf(s: System, x: nat): Stage {
    if x in s.stages then s.stages[x] else Resting
  }

  function TimeOf(m: map<Item, nat>, item: Item): nat {
    if item in m then m[item] else 0
  }

  /** The item that the informer's event asks for, if any. */
  function EventItem(deleted: bool, n: Notice): Option<Item> {
    if deleted then DeletedItem(n) else ChangedItem(n)
  }

  predicate Possible(s: System, t: Step) {
    match t
    case Notify(_, _) => true
    case Fire(item) => item in s.q.delayed
    case Begin(x) => StageOf(s, x).Resting? && s.q.queue != []
    case Finish(x, _) => StageOf(s, x).Reconciling?
    case End(x) => StageOf(s, x).Settling?
  }

  function Enter(s: System, x: nat, stage: Stage): System {
    s.(stages := s.stages[x := stage])
  }

  function Next(s: System, t: Step): System
    requires Possible(s, t)
  {
    match t
    case Notify(deleted, n) =>
      (match EventItem(deleted, n)
       case Some(item) => s.(q := Added(s.q, item), clock := s.clock + 1, due := s.due[item := s.clock + 1])
       case None => s)
    case Fire(item) => s.(q := Added(s.q.(delayed := s.q.delayed - {item}), item))
    case Begin(x) => Enter(s.(q := Gotten(s.q)), x, Reconciling(s.q.queue[0], s.clock))
    case Finish(x, err) =>
      var stage := StageOf(s, x);
      var s' := s.(q := Handled(s.q, stage.item, err), outcomes := s.outcomes + [Outcome(stage.item, err)]);
      Enter(if err.None? then s'.(covered := s.covered[stage.item := stage.began])
            else s'.(clock := s.clock + 1, due := s.due[stage.item := s.clock + 1]),
            x, Settling(stage.item))
    case End(x) => Enter(s.(q := Released(s.q, StageOf(s, x).item)), x, Resting)
  }

  /** A failure that is not just waiting. */
  predicate RealFailure(err: Option<Error>) {
    err.Some? && !IsWaiting(err.value)
  }

  /** The number of real failures of the item since its last success or waiting outcome. */
  function Streak(outcomes: seq<Note>, item: Item): nat {
    if outcomes == [] then 0
    else
      var last := outcomes[|outcomes| - 1];
      var before := Streak(outcomes[..|outcomes| - 1], item);
      if last.item != item then before else if RealFailure(last.err) then before + 1 else 0
  }

  // ---- the invariant ----

  ghost predicate NoRepeats(queue: seq<Item>) {
    forall i, j | 0 <= i < j < |queue| :: queue[i] != queue[j]
  }

  predicate Busy(stage: Stage, item: Item) {
    !stage.Resting? && stage.item == item
  }

  /** Queued are exactly the dirty items nobody is processing, each once. */
  ghost predicate QueueOk(q: State) {
    NoRepeats(q.queue) && forall i :: i in q.queue <==> i in q.dirty && i !in q.processing
  }

  /** Processed are exactly the workers' items, each by one worker. */
  ghost predicate WorkersOk(s: System) {
    && (forall x, y, item :: Busy(StageOf(s, x), item) && Busy(StageOf(s, y), item) ==> x == y)
    && (forall x, item :: Busy(StageOf(s, x), item) ==> item in s.q.processing)
    && (forall item | item in s.q.processing :: exists x :: Busy(StageOf(s, x), item))
  }

  /** The newest event or failure of the item is later than the start of its last successful reconcile. */
  predicate Owed(s: System, item: Item) {
    TimeOf(s.due, item) > TimeOf(s.covered, item)
  }

  /** A worker is at a reconcile that began after the item's newest event. */
  predicate UnderWay(s: System, x: nat, item: Item) {
    StageOf(s, x).Reconciling? && StageOf(s, x).item == item && StageOf(s, x).began >= TimeOf(s.due, item)
  }

  ghost predicate NothingLost(s: System) {
    forall item | Owed(s, item) ::
      item in s.q.dirty || item in s.q.delayed || exists x :: UnderWay(s, x, item)
  }

  /** An event that came after a worker began leaves the item dirty. */
  ghost predicate LateEventsDirty(s: System) {
    forall x | StageOf(s, x).Reconciling? && StageOf(s, x).began < TimeOf(s.due, StageOf(s, x).item) ::
      StageOf(s, x).item in s.q.dirty
  }

  ghost predicate CountsOk(s: System) {
    forall item :: Failures(s.q, item) == Streak(s.outcomes, item)
  }

  ghost predicate Inv(s: System) {
    QueueOk(s.q) && WorkersOk(s) && NothingLost(s) && LateEventsDirty(s) && CountsOk(s)
    && TimesOk(s)
  }

  /** Nothing is dated later than now. */
  ghost predicate TimesOk(s: System) {
    && (forall item :: TimeOf(s.due, item) <= s.clock && TimeOf(s.covered, item) <= s.clock)
    && (forall x :: StageOf(s, x).Reconciling? ==> StageOf(s, x).began <= s.clock)
  }

  lemma TimesKept(s: System, t: Step)
    requires TimesOk(s) && Possible(s, t)
    ensures TimesOk(Next(s, t))
  {
    hide Added, Handled, Released, EventItem;
    var s' := Next(s, t);
    forall x
      ensures StageOf(s', x).Reconciling? ==> StageOf(s', x).began <= s'.clock
    {
      assert StageOf(s, x).Reconciling? ==> StageOf(s, x).began <= s.clock;
    }
    forall item
      ensures TimeOf(s'.due, item) <= s'.clock && TimeOf(s'.covered, item) <= s'.clock
    {
      assert TimeOf(s.due, item) <= s.clock && TimeOf(s.covered, item) <= s.clock;
    }
  }

  lemma InvStart()
    ensures Inv(START)
  {
  }

  lemma AddedOk(q: State, item: Item)
    requires QueueOk(q)
    ensures QueueOk(Added(q, item))
  {
    assert forall i :: i in q.queue + [item] <==> i in q.queue || i == item;
  }

  lemma GottenOk(q: State)
    requires QueueOk(q) && q.queue != []
    ensures QueueOk(Gotten(q))
    ensures q.queue[0] in q.dirty && q.queue[0] !in q.processing
  {
    var rest := q.queue[1..];
    assert forall i | 0 <= i < |rest| :: rest[i] == q.queue[i + 1];
    assert q.queue[0] in q.queue;
    forall i
      ensures i in rest <==> i in q.queue && i != q.queue[0]
    {
      if i in q.queue && i != q.queue[0] {
        var n :| 0 <= n < |q.queue| && q.queue[n] == i;
        assert rest[n - 1] == i;
      }
    }
  }

  lemma ReleasedOk(q: State, item: Item)
    requires QueueOk(q) && item in q.processing
    ensures QueueOk(Released(q, item))
  {
    assert forall i :: i in q.queue + [item] <==> i in q.queue || i == item;
  }

  lemma QueueKept(s: System, t: Step)
    requires QueueOk(s.q) && WorkersOk(s) && Possible(s, t)
    ensures QueueOk(Next(s, t).q)
  {
    match t
    case Notify(deleted, n) =>
      if EventItem(deleted, n).Some? {
        AddedOk(s.q, EventItem(deleted, n).value);
      }
    case Fire(item) => AddedOk(s.q.(delayed := s.q.delayed - {item}), item);
    case Begin(_) => GottenOk(s.q);
    case Finish(_, _) =>
    case End(x) =>
      assert Busy(StageOf(s, x), StageOf(s, x).item);
      ReleasedOk(s.q, StageOf(s, x).item);
  }

  lemma WorkersKept(s: System, t: Step)
    requires QueueOk(s.q) && WorkersOk(s) && Possible(s, t)
    ensures WorkersOk(Next(s, t))
  {
    hide QueueOk;
    var s' := Next(s, t);
    var moved := if t.Begin? || t.Finish? || t.End? then t.worker else 0;
    assert forall x | x != moved || t.Notify? || t.Fire? :: StageOf(s', x) == StageOf(s, x);
    if t.Begin? {
      GottenOk(s.q);
      var first := s.q.queue[0];
      assert forall x :: !Busy(StageOf(s, x), first);
      assert Busy(StageOf(s', moved), first);
    }
    if t.Finish? || t.End? {
      assert Busy(StageOf(s, moved), StageOf(s, moved).item);
    }
    forall item | item in s'.q.processing
      ensures exists x :: Busy(StageOf(s', x), item)
    {
      if item in s.q.processing {
        var x :| Busy(StageOf(s, x), item);
        assert Busy(StageOf(s', x), item);
      }
    }
  }

  lemma SameFailures(s: System, t: Step)
    requires Possible(s, t) && !t.Finish?
    ensures Next(s, t).q.failures == s.q.failures && Next(s, t).outcomes == s.outcomes
  {
  }

  lemma OneMoreOutcome(q: State, outcomes: seq<Note>, note: Note, item: Item)
    requires Failures(q, item) == Streak(outcomes, item)
    ensures Failures(Handled(q, note.item, note.err), item) == Streak(outcomes + [note], item)
  {
    assert (outcomes + [note])[..|outcomes|] == outcomes;
  }

  lemma CountsKept(s: System, t: Step)
    requires CountsOk(s) && Possible(s, t)
    ensures CountsOk(Next(s, t))
  {
    var s' := Next(s, t);
    hide Added, Gotten, Released, EventItem, Is, Handled, Streak, Failures;
    if t.Finish? {
      var note := Outcome(StageOf(s, t.worker).item, t.err);
      forall item
        ensures Failures(s'.q, item) == Streak(s'.outcomes, item)
      {
        assert Failures(s.q, item) == Streak(s.outcomes, item);
        OneMoreOutcome(s.q, s.outcomes, note, item);
      }
    } else {
      SameFailures(s, t);
    }
  }

  lemma LateEventsKept(s: System, t: Step)
    requires Inv(s) && Possible(s, t)
    ensures LateEventsDirty(Next(s, t))
  {
    hide QueueOk, NothingLost, CountsOk, NoRepeats;
    var s' := Next(s, t);
    forall x | StageOf(s', x).Reconciling? && StageOf(s', x).began < TimeOf(s'.due, StageOf(s', x).item)
      ensures StageOf(s', x).item in s'.q.dirty
    {
      var item := StageOf(s', x).item;
      assert TimeOf(s.due, item) <= s.clock;
      if !(t.Begin? && t.worker == x) {
        assert StageOf(s', x) == StageOf(s, x);
        assert Busy(StageOf(s, x), item);
        if t.Begin? {
          assert Busy(StageOf(s, x), item) && item in s.q.processing;
          FirstIsNotProcessed(s);
        }
        if t.Finish? {
          assert Busy(StageOf(s, t.worker), StageOf(s, t.worker).item);
        }
      }
    }
  }

  lemma FirstIsNotProcessed(s: System)
    requires QueueOk(s.q) && s.q.queue != []
    ensures s.q.queue[0] !in s.q.processing && s.q.queue[0] in s.q.dirty
  {
    assert s.q.queue[0] in s.q.queue;
  }

  lemma NothingLostKept(s: System, t: Step)
    requires Inv(s) && Possible(s, t)
    ensures NothingLost(Next(s, t))
  {
    hide QueueOk, CountsOk, NoRepeats, WorkersOk;
    var s' := Next(s, t);
    forall item | Owed(s', item)
      ensures item in s'.q.dirty || item in s'.q.delayed || exists x :: UnderWay(s', x, item)
    {
      if t.Begin? && item == s.q.queue[0] {
        assert UnderWay(s', t.worker, item);
      } else if t.Finish? && item == StageOf(s, t.worker).item {
        if t.err.None? {
          assert StageOf(s, t.worker).began < TimeOf(s.due, item);
        }
      } else if !(t.Notify? && EventItem(t.deleted, t.n) == Some(item)) {
        assert Owed(s, item);
        if x :| UnderWay(s, x, item) {
          assert UnderWay(s', x, item);
        }
      }
    }
  }

  lemma InvKept(s: System, t: Step)
    requires Inv(s) && Possible(s, t)
    ensures Inv(Next(s, t))
  {
    hide QueueOk, WorkersOk, NothingLost, LateEventsDirty, CountsOk, TimesOk, Next;
    QueueKept(s, t);
    WorkersKept(s, t);
    NothingLostKept(s, t);
    LateEventsKept(s, t);
    CountsKept(s, t);
    TimesKept(s, t);
  }

  ghost predicate Ran(run: seq<Step>)
    decreases |run|, 0
  {
    run == [] || (Ran(run[..|run| - 1]) && Possible(Ends(run[..|run| - 1]), run[|run| - 1]))
  }

  ghost function Ends(run: seq<Step>): System
    requires Ran(run)
    decreases |run|, 1
  {
    if run == [] then START else Next(Ends(run[..|run| - 1]), run[|run| - 1])
  }

  lemma {:induction false} InvAlways(run: seq<Step>)
    requires Ran(run)
    ensures Inv(Ends(run))
    decreases |run|
  {
    hide Inv, Next, Possible;
    if run == [] {
      InvStart();
    } else {
      InvAlways(run[..|run| - 1]);
      InvKept(Ends(run[..|run| - 1]), run[|run| - 1]);
    }
  }

  /** In every run of the queue with any number of workers: no item is with two workers at once; an item whose
      newest event or failure no successful reconcile has seen is queued, dirty while processed, scheduled, or
      being reconciled by a worker that began after it; and the failure count of an item is the number of its
      real failures since it last succeeded or waited. */
  lemma NoWorkLostNoneDoubled(run: seq<Step>, item: Item)
    requires Ran(run)
    ensures forall x, y | Busy(StageOf(Ends(run), x), item) && Busy(StageOf(Ends(run), y), item) :: x == y
    ensures Owed(Ends(run), item) ==>
      (item in Ends(run).q.dirty || item in Ends(run).q.delayed || exists x :: UnderWay(Ends(run), x, item))
    ensures item in Ends(run).q.dirty ==> item in Ends(run).q.queue || exists x :: Busy(StageOf(Ends(run), x), item)
    ensures Failures(Ends(run).q, item) == Streak(Ends(run).outcomes, item)
  {
    InvAlways(run);
  }

  /** The items that events have put in. */
  ghost function Notified(run: seq<Step>): set<Item> {
    if run == [] then {}
    else Notified(run[..|run| - 1]) + EventItems(run[|run| - 1])
  }

  function EventItems(t: Step): set<Item> {
    if t.Notify? && EventItem(t.deleted, t.n).Some? then {EventItem(t.deleted, t.n).value} else {}
  }

  /** In every run: the event of a service, its deletion included, leaves the item of that service with its UID due,
      with a reconcile owed to it that has not begun. */
  lemma EventsAreOwed(run: seq<Step>, deleted: bool, n: Notice, key: string, uid: string)
    requires Ran(run) && (if deleted then OfService(n, key, uid) else n == ServiceNotice(Some(key), uid))
    ensures var s' := Next(Ends(run), Notify(deleted, n));
      && Queued(Ends(run).q, s'.q, Item(key, uid)) && Owed(s', Item(key, uid))
      && forall x :: !UnderWay(s', x, Item(key, uid))
  {
    InvAlways(run);
    var s := Ends(run);
    ChangesAreQueued(s.q, n);
    DeletionsAreQueued(s.q, n);
    DueIsNewest(s, Notify(deleted, n), Item(key, uid));
  }

  lemma DueIsNewest(s: System, t: Step, item: Item)
    requires TimesOk(s) && t.Notify? && EventItem(t.deleted, t.n) == Some(item)
    ensures Owed(Next(s, t), item) && forall x :: !UnderWay(Next(s, t), x, item)
  {
    hide Added;
    assert TimeOf(s.covered, item) <= s.clock;
    assert forall x :: StageOf(Next(s, t), x) == StageOf(s, x);
  }

  ghost predicate AllFrom(s: System, items: set<Item>) {
    && (forall i | i in s.q.queue :: i in items)
    && s.q.dirty <= items && s.q.delayed <= items
    && (forall x :: StageOf(s, x).Resting? || StageOf(s, x).item in items)
  }

  lemma {:induction false} NothingInvented(run: seq<Step>)
    requires Ran(run)
    ensures AllFrom(Ends(run), Notified(run))
    decreases |run|
  {
    if run != [] {
      var before := run[..|run| - 1];
      NothingInvented(before);
      StepInventsNothing(Ends(before), run[|run| - 1], Notified(before), Notified(run));
    }
  }

  lemma StepInventsNothing(s: System, t: Step, items: set<Item>, items': set<Item>)
    requires AllFrom(s, items) && Possible(s, t) && items <= items' && EventItems(t) <= items'
    ensures AllFrom(Next(s, t), items')
  {
    var s' := Next(s, t);
    forall i | i in s'.q.queue
      ensures i in items'
    {
      assert i in s.q.queue || i in s.q.dirty || i in EventItems(t) || (t.Fire? && i == t.item);
    }
    forall x
      ensures StageOf(s', x).Resting? || StageOf(s', x).item in items'
    {
      assert StageOf(s, x).Resting? || StageOf(s, x).item in items;
      assert t.Begin? ==> s.q.queue[0] in s.q.queue;
    }
  }

  /** What a worker takes is an item some event put in, and one that no other worker has: the guard of
      `Lifecycle.Take`. */
  lemma TakesFreeNotifiedItem(run: seq<Step>, x: nat)
    requires Ran(run) && Possible(Ends(run), Begin(x))
    ensures Ends(run).q.queue[0] in Notified(run)
    ensures forall y :: !Busy(StageOf(Ends(run), y), Ends(run).q.queue[0])
  {
    NothingInvented(run);
    InvAlways(run);
    FirstIsNotProcessed(Ends(run));
  }

  /** The queue is fair: whatever happens, a queued item is never overtaken; only a `Get` moves it, one place
      forward, and from the front into processing. */
  lemma NeverOvertaken(s: System, t: Step, n: nat)
    requires Inv(s) && Possible(s, t) && n < |s.q.queue|
    ensures var q' := Next(s, t).q;
      if !t.Begin? then n < |q'.queue| && q'.queue[n] == s.q.queue[n]
      else if n > 0 then n - 1 < |q'.queue| && q'.queue[n - 1] == s.q.queue[n]
      else Busy(StageOf(Next(s, t), t.worker), s.q.queue[0])
  {
  }

  /** What an outcome does to the queue, item by item: the item is scheduled again exactly after an error, its failure
      count grows by one after an error that is not waiting and is reset otherwise, and nothing else changes. */
  lemma OutcomeAccount(q: State, item: Item, err: Option<Error>, other: Item)
    ensures var q' := Handled(q, item, err);
      && q'.queue == q.queue && q'.dirty == q.dirty && q'.processing == q.processing
      && (other in q'.delayed <==> other in q.delayed || (other == item && err.Some?))
      && Failures(q', other) ==
         if other != item then Failures(q, other) else if RealFailure(err) then Failures(q, item) + 1 else 0
  {
    hide IsWaiting;
  }

  /** What the queue makes of a reconcile of the service handler: it waits, with the failure count reset, exactly
      when the run stopped at something not there yet; every other error counts as a failure. */
  lemma OutcomeOfReconcile(q: State, h: Host, item: Item, cached: Cached, run: seq<Api.Action>, e: Error)
    requires Calls.Walk(Worker(h), HandlerProgram.Start(item, cached), run, Fails(e))
    ensures
      var stopped := run != [] && HandlerFacts.StopsToWait(
        Calls.Reached(Worker(h), HandlerProgram.Start(item, cached), run[..|run| - 1]), run[|run| - 1]);
      var q' := Handled(q, item, Some(e));
      && item in q'.delayed
      && Failures(q', item) == if stopped then 0 else Failures(q, item) + 1
  {
    HandlerFacts.WaitingExactly(h, item, cached, run, e);
  }
}
