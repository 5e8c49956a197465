/** The Kubernetes API servers the operator talks to: Rancher's local cluster and the host clusters.
    A store maps (cluster, kind, namespace, name) to an object. A call is recorded as an `Action`
    together with the reply it got; any call may fail, and a failed write may still have taken effect. */
module Api {
  import opened Text
  import opened Json
  import opened Constants

  type Labels = map<string, string>

  datatype Kind = NamespaceKind | ServiceKind | SecretKind | PodKind | JobKind
                | ProvisioningCluster | ManagementCluster | Project | ProjectBinding | ClusterBinding
                | RegistrationToken | FleetWorkspace

  datatype Key = Key(cluster: string, kind: Kind, namespace: string, name: string)

  datatype Object = Object(uid: string, labels: Labels, finalizers: seq<string>, deleting: bool, body: Fields)

  /** The service UID and the host cluster an object is labelled with, or the empty text. */
  function ServiceUidOf(obj: Object): string { Lookup(obj.labels, LABEL_SERVICE_UID) }
  function HostNameOf(obj: Object): string { Lookup(obj.labels, LABEL_HOST_CLUSTER) }

  type Store = map<Key, Object>

  datatype Entry = Entry(key: Key, obj: Object)

  datatype Selector = Anything | HasValue(name: string, value: string) | Lacks(name: string)

  datatype Query = Query(cluster: string, kind: Kind, namespace: Option<string>, selector: Selector)

  datatype Reply<+T> = Ok(value: T) | NotFound | AlreadyExists | Conflict | Failed

  /** The difference between an object as read and as edited, sent as a JSON merge patch
      (section 2 of RFC 7386): maps merge key by key, lists are replaced as a whole. */
  datatype Change = Change(oldLabels: Labels, newLabels: Labels, oldFinalizers: seq<string>, newFinalizers: seq<string>)

  datatype Action =
    | Get(key: Key, got: Reply<Object>)
    | List(query: Query, items: Reply<seq<Entry>>)
    | Create(key: Key, obj: Object, took: bool, done: Reply<()>)
    | Delete(key: Key, took: bool, done: Reply<()>)
    | Patch(key: Key, change: Change, took: bool, done: Reply<()>)

  // The reserved cluster name of Rancher's own API server.
  const LOCAL := "local"

  predicate Selects(selector: Selector, labels: Labels) {
    match selector
    case Anything => true
    case HasValue(name, value) => name in labels && labels[name] == value
    case Lacks(name) => name !in labels
  }

  predicate Matches(q: Query, key: Key, obj: Object) {
    && key.cluster == q.cluster
    && key.kind == q.kind
    && (q.namespace.Some? ==> key.namespace == q.namespace.value)
    && Selects(q.selector, obj.labels)
  }

  ghost predicate IsListing(s: Store, q: Query, items: seq<Entry>) {
    && (forall i | 0 <= i < |items| ::
          items[i].key in s && s[items[i].key] == items[i].obj && Matches(q, items[i].key, items[i].obj))
    && (forall i, j | 0 <= i < j < |items| :: items[i].key != items[j].key)
    && (forall k | k in s && Matches(q, k, s[k]) :: Entry(k, s[k]) in items)
  }

  /** Some listing exists in every state. */
  lemma {:induction false} SomeListing(s: Store, q: Query) returns (items: seq<Entry>)
    ensures IsListing(s, q, items)
    decreases |s|
  {
    if s == map[] {
      items := [];
    } else {
      var k :| k in s;
      var rest := s - {k};
      items := SomeListing(rest, q);
      if Matches(q, k, s[k]) {
        items := items + [Entry(k, s[k])];
      }
      assert forall j | j in s && j != k :: j in rest && rest[j] == s[j];
    }
  }

  /** Labels after a merge patch: a key the patch changed takes the new value or goes, every other key
      keeps what the server holds now. */
  function MergedLabels(now: Labels, was: Labels, want: Labels): Labels {
    map k | k in now.Keys + want.Keys && (if SameAt(was, want, k) then k in now else k in want)
      :: if SameAt(was, want, k) then now[k] else want[k]
  }

  predicate SameAt(a: Labels, b: Labels, k: string) {
    (k in a <==> k in b) && (k in a ==> a[k] == b[k])
  }

  function Patched(now: Object, change: Change): Object {
    now.(labels := MergedLabels(now.labels, change.oldLabels, change.newLabels),
         finalizers := if change.oldFinalizers == change.newFinalizers then now.finalizers else change.newFinalizers)
  }

  /** The server takes no finalizer that is new to an object that is being deleted. */
  predicate Admits(now: Object, change: Change) {
    now.deleting ==> forall f | f in Patched(now, change).finalizers :: f in now.finalizers
  }

  /** An object that is being deleted disappears with its last finalizer. */
  function Stored(s: Store, key: Key, obj: Object): Store {
    if obj.deleting && obj.finalizers == [] then s - {key} else s[key := obj]
  }

  /** The reply is one the server can give in state `s`. */
  ghost predicate Enabled(s: Store, a: Action) {
    match a
    case Get(key, got) =>
      (match got
       case Ok(obj) => key in s && s[key] == obj
       case NotFound => key !in s
       case other => other.Failed?)
    case List(query, items) =>
      (match items
       case Ok(entries) => IsListing(s, query, entries)
       case other => other.Failed?)
    case Create(key, obj, took, done) =>
      && !obj.deleting
      && (match done
          case Ok(_) => took && key !in s
          case AlreadyExists => !took && key in s
          case other => other.Failed? && (took ==> key !in s))
    case Delete(key, took, done) =>
      (match done
       case Ok(_) => took && key in s
       case NotFound => !took && key !in s
       case other => other.Failed? && (took ==> key in s))
    case Patch(key, change, took, done) =>
      && (took ==> key in s && Admits(s[key], change))
      && (match done
          case Ok(_) => took
          case NotFound => !took && key !in s
          case Conflict => !took
          case other => other.Failed?)
  }

  ghost function Apply(s: Store, a: Action): Store
    requires Enabled(s, a)
  {
    match a
    case Get(_, _) => s
    case List(_, _) => s
    case Create(key, obj, took, _) => if took then s[key := obj] else s
    case Delete(key, took, _) => if took then Stored(s, key, s[key].(deleting := true)) else s
    case Patch(key, change, took, _) => if took then Stored(s, key, Patched(s[key], change)) else s
  }

  /** The run of calls can happen from `s`, one after the other with nothing in between. */
  ghost predicate Possible(s: Store, run: seq<Action>)
    decreases |run|, 0
  {
    run == [] || (Possible(s, run[..|run| - 1]) && Enabled(After(s, run[..|run| - 1]), run[|run| - 1]))
  }

  ghost function After(s: Store, run: seq<Action>): Store
    requires Possible(s, run)
    decreases |run|, 1
  {
    if run == [] then s else Apply(After(s, run[..|run| - 1]), run[|run| - 1])
  }

  lemma AfterOne(s: Store, run: seq<Action>, a: Action)
    requires Possible(s, run) && Enabled(After(s, run), a)
    ensures Possible(s, run + [a]) && After(s, run + [a]) == Apply(After(s, run), a)
  {
    assert (run + [a])[..|run|] == run;
  }

  /** A possible run can also be taken apart at its first call. */
  lemma {:induction false} PossibleFirst(s: Store, run: seq<Action>)
    requires run != [] && Possible(s, run)
    ensures Enabled(s, run[0]) && Possible(Apply(s, run[0]), run[1..])
    ensures After(Apply(s, run[0]), run[1..]) == After(s, run)
    decreases |run|
  {
    hide Enabled, Apply;
    if |run| > 1 {
      var before := run[..|run| - 1];
      PossibleFirst(s, before);
      assert run[1..][..|run| - 2] == before[1..];
    } else {
      assert run[..0] == [] && run[1..] == [];
    }
  }

  /** What follows a possible run is possible from where that ended. */
  lemma {:induction false} PossibleRest(s: Store, before: seq<Action>, run: seq<Action>)
    requires Possible(s, before + run)
    ensures Possible(s, before) && Possible(After(s, before), run)
    ensures After(After(s, before), run) == After(s, before + run)
    decreases |run|
  {
    hide Enabled, Apply;
    if run == [] {
      assert before + run == before;
    } else {
      assert (before + run)[..|before + run| - 1] == before + run[..|run| - 1];
      PossibleRest(s, before, run[..|run| - 1]);
    }
  }

  /** No call of the run failed; a run without failures is one in which every call got a definite answer. */
  predicate FaultFree(run: seq<Action>) {
    forall i | 0 <= i < |run| :: !IsFault(run[i])
  }

  predicate IsFault(a: Action) {
    match a
    case Get(_, got) => !got.Ok? && !got.NotFound?
    case List(_, items) => !items.Ok?
    case Create(_, _, _, done) => !done.Ok? && !done.AlreadyExists?
    case Delete(_, _, done) => !done.Ok? && !done.NotFound?
    case Patch(_, _, _, done) => !done.Ok? && !done.NotFound?
  }

  /** The part of a list whose field `keys` equals (or differs from) `filter`. */
  function Filtered(list: seq<Entry>, filter: string, mustEqual: bool, keys: seq<string>): seq<Entry> {
    if list == [] then []
    else
      var last := list[|list| - 1];
      Filtered(list[..|list| - 1], filter, mustEqual, keys)
      + if (Str(last.obj.body, keys) == filter) == mustEqual then [last] else []
  }

  method FilterItems(list: seq<Entry>, filter: string, mustEqual: bool, keys: seq<string>) returns (matching: seq<Entry>)
    ensures matching == Filtered(list, filter, mustEqual, keys)
  {
    matching := [];
    for i := 0 to |list|
      invariant matching == Filtered(list[..i], filter, mustEqual, keys)
    {
      assert list[..i + 1][..i] == list[..i];
      var value := Str(list[i].obj.body, keys);
      if (mustEqual && value != filter) || (!mustEqual && value == filter) {
        continue;
      }
      matching := matching + [list[i]];
    }
    assert list[..|list|] == list;
  }

  /** Filtering keeps exactly the entries that pass, no entry twice more often than listed. */
  lemma {:induction false} FilteredExact(list: seq<Entry>, filter: string, mustEqual: bool, keys: seq<string>)
    ensures forall e :: e in Filtered(list, filter, mustEqual, keys)
                   <==> e in list && (Str(e.obj.body, keys) == filter) == mustEqual
  {
    if list != [] {
      FilteredExact(list[..|list| - 1], filter, mustEqual, keys);
      assert list == list[..|list| - 1] + [list[|list| - 1]];
    }
  }

  /** One API server connection. The ghost log records every call since `origin`. */
  class ApiServer {
    var objects: Store
    ghost var log: seq<Action>
    ghost const origin: Store

    constructor (initial: Store)
      ensures Valid() && objects == initial == origin && log == []
    {
      objects := initial;
      origin := initial;
      log := [];
    }

    /** The server's state is what its log of calls makes of the state it started from. */
    ghost predicate Valid()
      reads this
    {
      Possible(origin, log) && After(origin, log) == objects
    }

    /** The call was made and answered in the state before, and its effect is the state now. */
    twostate predicate Made(call: Action)
      reads this
    {
      log == old(log) + [call] && Enabled(old(objects), call) && objects == Apply(old(objects), call)
    }

    /** The calls logged since then lead from the state then to the state now. */
    twostate lemma RunMade(run: seq<Action>)
      requires old(Valid()) && Valid() && log == old(log) + run
      ensures Possible(old(objects), run) && After(old(objects), run) == objects
    {
      PossibleRest(origin, old(log), run);
    }

    ghost method Record(call: Action)
      requires Valid() && Enabled(objects, call)
      modifies this`log
      ensures log == old(log) + [call]
      ensures Possible(origin, log) && After(origin, log) == Apply(objects, call)
    {
      AfterOne(origin, log, call);
      log := log + [call];
    }

    method Get(key: Key) returns (got: Reply<Object>, ghost call: Action)
      requires Valid()
      modifies this`log
      ensures Valid() && Made(call) && call == Action.Get(key, got)
    {
      if * {
        got := Failed;
      } else if key in objects {
        got := Ok(objects[key]);
      } else {
        got := NotFound;
      }
      call := Action.Get(key, got);
      Record(call);
    }

    method List(query: Query) returns (items: Reply<seq<Entry>>, ghost call: Action)
      requires Valid()
      modifies this`log
      ensures Valid() && Made(call) && call == Action.List(query, items)
      ensures items.Ok? || items.Failed?
    {
      if * {
        items := Failed;
      } else {
        var listed := Listing(query);
        items := Ok(listed);
      }
      call := Action.List(query, items);
      Record(call);
    }

    /** The matching objects in any order. */
    method Listing(query: Query) returns (items: seq<Entry>)
      ensures IsListing(objects, query, items)
    {
      items := [];
      var rest := objects.Keys;
      while rest != {}
        invariant rest <= objects.Keys
        invariant IsListing(map k | k in objects && k !in rest :: objects[k], query, items)
        decreases |rest|
      {
        var k :| k in rest;
        if Matches(query, k, objects[k]) {
          items := items + [Entry(k, objects[k])];
        }
        rest := rest - {k};
      }
      assert (map k | k in objects && k !in rest :: objects[k]) == objects;
    }

    method FullName(name: string, genName: bool) returns (fullName: string)
      ensures if genName then Generated(name, fullName) else fullName == name
    {
      if !genName {
        return name;
      }
      var suffix: string := *;
      if |suffix| != 5 {
        suffix := seq(5, _ => 'x');
      }
      fullName := Truncated(name) + suffix;
    }

    /** With `genName` the server appends five characters of its choice to the (possibly truncated) name. */
    method Create(cluster: string, kind: Kind, name: string, namespace: string, genName: bool,
                  labels: Labels, finalizers: seq<string>, body: Fields)
      returns (done: Reply<()>, key: Key, obj: Object, ghost call: Action)
      requires Valid()
      modifies this`objects, this`log
      ensures Valid() && Made(call) && call.Create? && call == Action.Create(key, obj, call.took, done)
      ensures key.cluster == cluster && key.kind == kind && key.namespace == namespace
      ensures if genName then Generated(name, key.name) else key.name == name
      ensures obj.labels == labels && obj.finalizers == finalizers && obj.body == body && !obj.deleting
      ensures done.Ok? || done.AlreadyExists? || done.Failed?
    {
      var uid: string := *;
      var fullName := FullName(name, genName);
      key := Key(cluster, kind, namespace, fullName);
      obj := Object(uid, labels, finalizers, false, body);
      var took, lucky: bool := false, *;
      if key in objects {
        done := if lucky then AlreadyExists else Failed;
      } else {
        took := *;
        done := if took && lucky then Ok(()) else Failed;
      }
      call := Action.Create(key, obj, took, done);
      Record(call);
      if took {
        objects := objects[key := obj];
      }
    }

    method Delete(key: Key) returns (done: Reply<()>, ghost call: Action)
      requires Valid()
      modifies this`objects, this`log
      ensures Valid() && Made(call) && call.Delete? && call == Action.Delete(key, call.took, done)
      ensures done.Ok? || done.NotFound? || done.Failed?
    {
      var took, lucky: bool := false, *;
      if key !in objects {
        done := if lucky then NotFound else Failed;
      } else {
        took := *;
        done := if took && lucky then Ok(()) else Failed;
      }
      call := Action.Delete(key, took, done);
      Record(call);
      if took {
        objects := Stored(objects, key, objects[key].(deleting := true));
      }
    }

    method Patch(key: Key, change: Change) returns (done: Reply<()>, ghost call: Action)
      requires Valid()
      modifies this`objects, this`log
      ensures Valid() && Made(call) && call.Patch? && call == Action.Patch(key, change, call.took, done)
      ensures done.Ok? || done.NotFound? || done.Conflict? || done.Failed?
    {
      var took, lucky: bool := false, *;
      if key !in objects {
        done := if lucky then NotFound else Failed;
      } else if * {
        done := Conflict;
      } else {
        if Admits(objects[key], change) {
          took := *;
        }
        done := if took && lucky then Ok(()) else Failed;
      }
      call := Action.Patch(key, change, took, done);
      Record(call);
      if took {
        objects := Stored(objects, key, Patched(objects[key], change));
      }
    }
  }

  /** The server keeps at most 58 octets of a generateName base and appends five of its own. */
  function Truncated(base: string): string {
    if |base| > 58 then base[..58] else base
  }

  predicate Generated(base: string, name: string) {
    |name| == |Truncated(base)| + 5 && name[..|Truncated(base)|] == Truncated(base)
  }
}
