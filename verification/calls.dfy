/** Programs over API calls. A program says which call it makes next and where it goes on each reply; the
    runs of a program are the sequences of calls it can make. `Client` makes the calls and keeps the account. */
module Calls {
  import opened Json
  import opened Api

  /** The call a program is about to make. `AskNothing` is the end of the program. */
  datatype Ask =
    | AskGet(key: Key)
    | AskList(query: Query)
    | AskCreate(cluster: string, kind: Kind, name: string, genName: bool, namespace: string, labels: Labels, body: Fields)
    | AskDelete(key: Key)
    | AskPatch(key: Key, change: Change)
    | AskNothing

  /** The action is this call, with some reply. */
  predicate Answers(ask: Ask, a: Action) {
    match ask
    case AskGet(key) => a.Get? && a.key == key
    case AskList(query) => a.List? && a.query == query
    case AskCreate(cluster, kind, name, genName, namespace, labels, body) =>
      && a.Create? && a.key.cluster == cluster && a.key.kind == kind && a.key.namespace == namespace
      && (if genName then Generated(name, a.key.name) else a.key.name == name)
      && a.obj.labels == labels && a.obj.finalizers == [] && a.obj.body == body && !a.obj.deleting
    case AskDelete(key) => a.Delete? && a.key == key
    case AskPatch(key, change) => a.Patch? && a.key == key && a.change == change
    case AskNothing => false
  }

  datatype Program<!Pc> = Program(asks: Pc -> Ask, next: (Pc, Action) -> Pc)

  /** Started at `pc`, the program makes exactly these calls and gets these replies. */
  predicate Follows<Pc>(p: Program<Pc>, pc: Pc, run: seq<Action>)
    decreases |run|
  {
    run == [] ||
    (Follows(p, pc, run[..|run| - 1]) && Answers(p.asks(Reached(p, pc, run[..|run| - 1])), run[|run| - 1]))
  }

  /** Where the program is after the run. */
  function Reached<Pc>(p: Program<Pc>, pc: Pc, run: seq<Action>): Pc
    decreases |run|
  {
    if run == [] then pc else p.next(Reached(p, pc, run[..|run| - 1]), run[|run| - 1])
  }

  /** The run takes the program from `pc` to `to`. */
  predicate Walk<Pc(==)>(p: Program<Pc>, pc: Pc, run: seq<Action>, to: Pc) {
    Follows(p, pc, run) && Reached(p, pc, run) == to
  }

  lemma WalkOne<Pc>(p: Program<Pc>, pc: Pc, run: seq<Action>, mid: Pc, a: Action)
    requires Walk(p, pc, run, mid) && Answers(p.asks(mid), a)
    ensures Walk(p, pc, run + [a], p.next(mid, a))
  {
    assert (run + [a])[..|run|] == run;
  }

  /** A run can also be taken apart at its first call. */
  lemma {:induction false} WalkFirst<Pc>(p: Program<Pc>, pc: Pc, run: seq<Action>, to: Pc)
    requires run != [] && Walk(p, pc, run, to)
    ensures Answers(p.asks(pc), run[0]) && Walk(p, p.next(pc, run[0]), run[1..], to)
    decreases |run|
  {
    if |run| == 1 {
      assert run[..0] == [] && run[1..] == [];
    } else {
      var before := run[..|run| - 1];
      WalkFirst(p, pc, before, Reached(p, pc, before));
      assert run[1..][..|run| - 2] == before[1..];
    }
  }

  /** A program that asks nothing makes no further call. */
  lemma WalkEnds<Pc>(p: Program<Pc>, pc: Pc, run: seq<Action>, to: Pc)
    requires Walk(p, pc, run, to) && p.asks(pc) == AskNothing
    ensures run == [] && to == pc
  {
    if run != [] {
      WalkFirst(p, pc, run, to);
    }
  }

  /** An account of one run of a program: the calls logged after `before` lead from `start` to `pc`. */
  class Client<Pc(!new)> {
    const api: ApiServer
    ghost const program: Program<Pc>
    ghost const start: Pc
    ghost const before: seq<Action>
    ghost var pc: Pc

    constructor (api: ApiServer, ghost program: Program<Pc>, ghost start: Pc)
      requires api.Valid()
      ensures OnTrack() && this.api == api && this.program == program && this.start == start && pc == start
      ensures before == api.log
    {
      this.api := api;
      this.program := program;
      this.start := start;
      this.pc := start;
      this.before := api.log;
    }

    ghost predicate OnTrack()
      reads this, api
    {
      api.Valid() && before <= api.log && Walk(program, start, api.log[|before|..], pc)
    }

    /** The calls of this run. */
    ghost function Run(): seq<Action>
      requires OnTrack()
      reads this, api
    {
      api.log[|before|..]
    }

    twostate lemma StepTaken(call: Action)
      requires old(OnTrack()) && api.Valid() && api.Made(call)
      requires Answers(program.asks(old(pc)), call) && pc == program.next(old(pc), call)
      ensures OnTrack()
    {
      WalkOne(program, start, old(api.log[|before|..]), old(pc), call);
      assert api.log[|before|..] == old(api.log[|before|..]) + [call];
    }

    method Get(key: Key) returns (got: Reply<Object>)
      requires OnTrack() && program.asks(pc) == AskGet(key)
      modifies api`log, this`pc
      ensures OnTrack() && pc == program.next(old(pc), Action.Get(key, got))
      ensures got.Ok? || got.NotFound? || got.Failed?
    {
      ghost var call;
      got, call := api.Get(key);
      pc := program.next(pc, call);
      StepTaken(call);
    }

    method List(query: Query) returns (items: Reply<seq<Entry>>)
      requires OnTrack() && program.asks(pc) == AskList(query)
      modifies api`log, this`pc
      ensures OnTrack() && pc == program.next(old(pc), Action.List(query, items))
      ensures items.Ok? || items.Failed?
    {
      ghost var call;
      items, call := api.List(query);
      pc := program.next(pc, call);
      StepTaken(call);
    }

    method Create(cluster: string, kind: Kind, name: string, genName: bool, namespace: string, labels: Labels, body: Fields)
      returns (done: Reply<()>, ghost call: Action)
      requires OnTrack() && program.asks(pc) == AskCreate(cluster, kind, name, genName, namespace, labels, body)
      modifies api`log, api`objects, this`pc
      ensures OnTrack() && pc == program.next(old(pc), call)
      ensures call.Create? && call.done == done && Answers(program.asks(old(pc)), call)
      ensures done.Ok? || done.AlreadyExists? || done.Failed?
    {
      var key, obj;
      done, key, obj, call := api.Create(cluster, kind, name, namespace, genName, labels, [], body);
      pc := program.next(pc, call);
      StepTaken(call);
    }

    method Delete(key: Key) returns (done: Reply<()>, ghost call: Action)
      requires OnTrack() && program.asks(pc) == AskDelete(key)
      modifies api`log, api`objects, this`pc
      ensures OnTrack() && pc == program.next(old(pc), call)
      ensures call.Delete? && call == Action.Delete(key, call.took, done)
      ensures done.Ok? || done.NotFound? || done.Failed?
    {
      done, call := api.Delete(key);
      pc := program.next(pc, call);
      StepTaken(call);
    }

    method Patch(key: Key, change: Change) returns (done: Reply<()>, ghost call: Action)
      requires OnTrack() && program.asks(pc) == AskPatch(key, change)
      modifies api`log, api`objects, this`pc
      ensures OnTrack() && pc == program.next(old(pc), call)
      ensures call.Patch? && call == Action.Patch(key, change, call.took, done)
      ensures done.Ok? || done.NotFound? || done.Conflict? || done.Failed?
    {
      done, call := api.Patch(key, change);
      pc := program.next(pc, call);
      StepTaken(call);
    }

    /** `GetFirstWithLabel` of pkg/unstructured: the first listed object, or NotFound. */
    method GetFirstWithLabel(query: Query) returns (first: Reply<Entry>, ghost items: Reply<seq<Entry>>)
      requires OnTrack() && program.asks(pc) == AskList(query)
      modifies api`log, this`pc
      ensures OnTrack() && pc == program.next(old(pc), Action.List(query, items))
      ensures items.Ok? ==> first == if items.value == [] then NotFound else Ok(items.value[0])
      ensures !items.Ok? ==> items.Failed? && first == Failed
    {
      var listed := List(query);
      items := listed;
      match listed {
        case Ok(entries) => first := if |entries| == 0 then NotFound else Ok(entries[0]);
        case _ => first := Failed;
      }
    }
  }
}
