/** The controller's book of running handlers, one per host cluster, over concurrent reconciles
    (`peers` in internal/controller/clusters/cluster_controller.go). */
module Peers {

  /** A handler that was launched for a cluster; it runs until it is cancelled. */
  datatype Launched = Launched(cluster: string, cancelled: bool)

  /** `peers` gives the position of a cluster's handler among all handlers ever launched. */
  datatype Book = Book(peers: map<string, nat>, handlers: seq<Launched>)

  /** How setting up a handler goes: where it fails, or that it does not. */
  datatype Attempt = NoRestConfig | NoClient | NoEventHandler | Works

  const EMPTY := Book(map[], [])

  function Installed(b: Book, name: string, attempt: Attempt): Book {
    if name in b.peers || !attempt.Works? then b
    else Book(b.peers[name := |b.handlers|], b.handlers + [Launched(name, false)])
  }

  function Dropped(b: Book, name: string): Book {
    if name in b.peers && b.peers[name] < |b.handlers| then
      Book(b.peers - {name}, b.handlers[b.peers[name] := b.handlers[b.peers[name]].(cancelled := true)])
    else b
  }

  predicate Runs(b: Book, i: nat, name: string) {
    i < |b.handlers| && b.handlers[i] == Launched(name, false)
  }

  /** A name is in the book exactly with the one handler that runs for it. */
  ghost predicate Exact(b: Book) {
    forall name, i :: Runs(b, i, name) <==> name in b.peers && b.peers[name] == i
  }

  /** A handler runs for the name, which the book knows of, and every other handler is as before. */
  ghost predicate HandlerUp(b: Book, b': Book, name: string) {
    && name in b'.peers && (exists i :: Runs(b', i, name))
    && forall i, n | n != name :: Runs(b', i, n) <==> Runs(b, i, n)
  }

  /** No handler runs for the name, and every other is as before. */
  ghost predicate HandlerDown(b: Book, b': Book, name: string) {
    && name !in b'.peers && (forall i :: !Runs(b', i, name))
    && forall i, n | n != name :: Runs(b', i, n) <==> Runs(b, i, n)
  }

  /** Installing leaves a handler running for the name if there was one or setting it up works, the old one where there
      was one; otherwise it changes nothing. */
  lemma InstallingRuns(b: Book, name: string, attempt: Attempt)
    requires Exact(b)
    ensures name in b.peers || attempt.Works? ==> HandlerUp(b, Installed(b, name, attempt), name)
    ensures name in b.peers || !attempt.Works? ==> Installed(b, name, attempt) == b
  {
    var b' := Installed(b, name, attempt);
    InstalledExact(b, name, attempt);
    if name in b'.peers {
      assert Runs(b', b'.peers[name], name);
    }
  }

  lemma DroppingStops(b: Book, name: string)
    requires Exact(b)
    ensures HandlerDown(b, Dropped(b, name), name)
  {
    DroppedExact(b, name);
    assert name in b.peers ==> Runs(b, b.peers[name], name);
  }

  // ---- concurrent reconciles ----

  datatype Answer = IsReady | IsUnready | IsGone | Unknown

  /** A worker is looking the cluster up, at the lock, or done with the book. */
  datatype Stage = Idle | Looking(name: string) | AtLock(name: string, gone: bool) | Leaving(name: string, gone: bool)

  datatype System = System(book: Book, stages: map<nat, Stage>)

  datatype Step = Begin(worker: nat, name: string) | Look(worker: nat, answer: Answer) | Lock(worker: nat,
      attempt: Attempt)
                | End(worker: nat)

  const START := System(EMPTY, map[])

  function StageOf(s: System, x: nat): Stage {
    if x in s.stages then s.stages[x] else Idle
  }

  /** A cluster is reconciled by one worker at a time. */
  ghost predicate Can(s: System, t: Step) {
    match t
    case Begin(x, name) =>
      StageOf(s, x).Idle? && forall y :: StageOf(s, y).Idle? || StageOf(s, y).name != name
    case Look(x, _) => StageOf(s, x).Looking?
    case Lock(x, _) => StageOf(s, x).AtLock?
    case End(x) => StageOf(s, x).Leaving?
  }

  function Enter(s: System, x: nat, stage: Stage): System {
    s.(stages := s.stages[x := stage])
  }

  ghost function Do(s: System, t: Step): System
    requires Can(s, t)
  {
    match t
    case Begin(x, name) => Enter(s, x, Looking(name))
    case Look(x, answer) =>
      var name := StageOf(s, x).name;
      Enter(s, x, if answer.IsReady? || answer.IsGone? then AtLock(name, answer.IsGone?) else Leaving(name, false))
    case Lock(x, attempt) =>
      var stage := StageOf(s, x);
      var book := if stage.gone then Dropped(s.book, stage.name) else Installed(s.book, stage.name, attempt);
      Enter(s, x, Leaving(stage.name, stage.gone)).(book := book)
    case End(x) => Enter(s, x, Idle)
  }

  ghost predicate NamesApart(s: System) {
    forall x, y :: StageOf(s, x).Idle? || StageOf(s, y).Idle? || x == y || StageOf(s, x).name != StageOf(s, y).name
  }

  /** A worker that found the cluster gone leaves no handler for it. */
  ghost predicate GoneAreOut(s: System) {
    forall x :: StageOf(s, x).Leaving? && StageOf(s, x).gone ==> StageOf(s, x).name !in s.book.peers
  }

  ghost predicate Inv(s: System) {
    Exact(s.book) && NamesApart(s) && GoneAreOut(s)
  }

  lemma InstalledExact(b: Book, name: string, attempt: Attempt)
    requires Exact(b)
    ensures Exact(Installed(b, name, attempt))
  {
    var b' := Installed(b, name, attempt);
    forall n, i
      ensures Runs(b', i, n) <==> n in b'.peers && b'.peers[n] == i
    {
      assert Runs(b, i, n) <==> n in b.peers && b.peers[n] == i;
      assert n in b.peers ==> Runs(b, b.peers[n], n);
    }
  }

  lemma DroppedExact(b: Book, name: string)
    requires Exact(b)
    ensures Exact(Dropped(b, name)) && name !in Dropped(b, name).peers
  {
    assert name in b.peers ==> Runs(b, b.peers[name], name);
    var b' := Dropped(b, name);
    forall n, i
      ensures Runs(b', i, n) <==> n in b'.peers && b'.peers[n] == i
    {
      assert Runs(b, i, n) <==> n in b.peers && b.peers[n] == i;
      assert n in b.peers ==> Runs(b, b.peers[n], n);
    }
  }

  lemma InvKept(s: System, t: Step)
    requires Inv(s) && Can(s, t)
    ensures Inv(Do(s, t))
  {
    hide Exact;
    var s' := Do(s, t);
    if t.Lock? {
      DroppedExact(s.book, StageOf(s, t.worker).name);
      InstalledExact(s.book, StageOf(s, t.worker).name, t.attempt);
    }
    forall x | StageOf(s', x).Leaving? && StageOf(s', x).gone
      ensures StageOf(s', x).name !in s'.book.peers
    {
      assert x != t.worker ==> StageOf(s', x) == StageOf(s, x);
      assert StageOf(s, t.worker).Idle? || x == t.worker || StageOf(s, t.worker).name != StageOf(s', x).name;
    }
    NamesApartKept(s, t);
  }

  lemma NamesApartKept(s: System, t: Step)
    requires NamesApart(s) && Can(s, t)
    ensures NamesApart(Do(s, t))
  {
    var s' := Do(s, t);
    assert forall x | x != t.worker :: StageOf(s', x) == StageOf(s, x);
  }

  ghost predicate Ran(run: seq<Step>)
    decreases |run|, 0
  {
    run == [] || (Ran(run[..|run| - 1]) && Can(Ends(run[..|run| - 1]), run[|run| - 1]))
  }

  ghost function Ends(run: seq<Step>): System
    requires Ran(run)
    decreases |run|, 1
  {
    if run == [] then START else Do(Ends(run[..|run| - 1]), run[|run| - 1])
  }

  lemma {:induction false} InvAlways(run: seq<Step>)
    requires Ran(run)
    ensures Inv(Ends(run))
    decreases |run|
  {
    if run != [] {
      hide Inv, Can, Do;
      InvAlways(run[..|run| - 1]);
      InvKept(Ends(run[..|run| - 1]), run[|run| - 1]);
    }
  }

  /** Over every interleaving of concurrent reconciles: a cluster is in the book exactly when a handler runs for
      it, never more than one does, and a reconcile that found the cluster gone ends with none. */
  lemma OneHandlerPerCluster(run: seq<Step>, name: string)
    requires Ran(run)
    ensures name in Ends(run).book.peers <==> exists i :: Runs(Ends(run).book, i, name)
    ensures forall i, j | Runs(Ends(run).book, i, name) && Runs(Ends(run).book, j, name) :: i == j
    ensures forall x, i | StageOf(Ends(run), x) == Leaving(name, true) :: !Runs(Ends(run).book, i, name)
  {
    InvAlways(run);
    var b := Ends(run).book;
    if name in b.peers {
      assert Runs(b, b.peers[name], name);
    }
  }

  /** Handlers are launched only by a reconcile that found its cluster ready and could set everything up, and
      stopped only by one that found its cluster gone; what was launched once is never launched again. */
  lemma OnlyReadyClustersLaunch(run: seq<Step>, t: Step)
    requires Ran(run) && Can(Ends(run), t)
    ensures |Do(Ends(run), t).book.handlers| >= |Ends(run).book.handlers|
    ensures |Do(Ends(run), t).book.handlers| > |Ends(run).book.handlers| ==>
      t.Lock? && t.attempt.Works? && !StageOf(Ends(run), t.worker).gone
      && StageOf(Ends(run), t.worker).name !in Ends(run).book.peers
    ensures forall i, name | Runs(Ends(run).book, i, name) && !Runs(Do(Ends(run), t).book, i, name) ::
      t.Lock? && StageOf(Ends(run), t.worker) == AtLock(name, true)
  {
    InvAlways(run);
    var s := Ends(run);
    if t.Lock? && StageOf(s, t.worker).gone {
      var gone := StageOf(s, t.worker).name;
      assert gone in s.book.peers ==> Runs(s.book, s.book.peers[gone], gone);
    }
  }

  /** And they do: in every run, a worker that holds the lock for a ready cluster leaves a handler running for it if
      there was one or setting it up works; one that holds it for a cluster that is gone leaves none. */
  lemma ReadyClusterIsServed(run: seq<Step>, x: nat, name: string, attempt: Attempt)
    requires Ran(run) && (StageOf(Ends(run), x) == AtLock(name, false) || StageOf(Ends(run), x) == AtLock(name, true))
    ensures var b, b' := Ends(run).book, Do(Ends(run), Lock(x, attempt)).book;
      if StageOf(Ends(run), x).gone then HandlerDown(b, b', name)
      else if name in b.peers || attempt.Works? then HandlerUp(b, b', name) else b' == b
  {
    hide HandlerUp, HandlerDown;
    InvAlways(run);
    InstallingRuns(Ends(run).book, name, attempt);
    DroppingStops(Ends(run).book, name);
  }

  /** A worker that finds its cluster ready comes to the lock, and so does one that finds it gone; no other does. */
  lemma ReadyClusterComesToLock(s: System, x: nat, name: string, answer: Answer)
    requires StageOf(s, x) == Looking(name)
    ensures var stage := StageOf(Do(s, Look(x, answer)), x);
      && (answer.IsReady? <==> stage == AtLock(name, false)) && (answer.IsGone? <==> stage == AtLock(name, true))
  {
  }
}
