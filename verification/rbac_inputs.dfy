/** That a pass without failed calls always comes to its end, and what it comes to at three stores, one for each way
    in which owners are not kept up to date. */
module RbacInputs {
  import opened Json
  import opened Api
  import opened Calls
  import opened Constants
  import opened Rbac
  import opened RbacRuns
  import opened RbacPass
  import RbacOrder

  /** Every call a pass makes can be answered without a failure. */
  lemma SomeReply(s: Store, t: Target, pc: Pc) returns (a: Action)
    requires Asks(t, pc) != AskNothing
    ensures Answers(Asks(t, pc), a) && Enabled(s, a) && !IsFault(a)
  {
    hide GrantKey, User, GrantLabels, GrantBody, IsListing;
    match Asks(t, pc)
    case AskGet(key) => a := Action.Get(key, if key in s then Ok(s[key]) else NotFound);
    case AskList(query) =>
      var items := SomeListing(s, query);
      a := Action.List(query, Ok(items));
    case AskCreate(cluster, kind, name, genName, namespace, labels, body) =>
      var key := Key(cluster, kind, namespace, name);
      var obj := Object("", labels, [], false, body);
      a := Action.Create(key, obj, key !in s, if key in s then AlreadyExists else Ok(()));
    case AskDelete(key) => a := Action.Delete(key, key in s, if key in s then Ok(()) else NotFound);
  }

  lemma KnowsWhatToAsk(s: Store, t: Target, pc: Pc)
    requires Knows(s, t, pc) && !pc.Finished?
    ensures Asks(t, pc) != AskNothing
  {
    hide GrantKey, User, GrantLabels, GrantBody, SourcesAre, IsOwner, AllGranted, StillManaged, SurplusAhead;
  }

  /** From every world a pass under way can come to its end without a failed call. */
  lemma {:induction false} SomeFaultFreePass(ts: Targets, w: World, before: seq<Event>, n: string)
    returns (run: seq<Event>)
    requires Inv(ts, w) && n in ts && Ran(ts, w, before) && FaultFreePass(before, n)
    ensures Ran(ts, w, run) && FaultFreePass(run, n) && PassOf(End(ts, w, run), n).Finished?
    decreases Stage(PassOf(End(ts, w, before), n)), Ahead(PassOf(End(ts, w, before), n))
  {
    var now := End(ts, w, before);
    var pc := PassOf(now, n);
    if pc.Finished? {
      return before;
    }
    InvAlways(ts, w, before);
    KnowsWhatToAsk(now.store, ts[n], pc);
    hide Inv, Asks, Next, Stage, Ahead, Enabled, Knows, Answers, IsFault;
    var a := SomeReply(now.store, ts[n], pc);
    RbacOrder.RanOne(ts, w, before, Call(n, a));
    EveryReplyCounts(ts[n], pc, a);
    run := SomeFaultFreePass(ts, w, before + [Call(n, a)], n);
  }

  // ---- the inputs ----

  const T := Target("c", map[LABEL_SERVICE_UID := "u", LABEL_HOST_CLUSTER := "h", LABEL_PROJECT_UID := "p",
                             LABEL_PROJECT_NAME := "p1"])
  const TS: Targets := map["c" := T]
  const PROJECT := Key(LOCAL, Project, "h", "p1")
  const NOBODYS := Key(LOCAL, ClusterBinding, "c", "vcluster--co")
  const BINDING := Key(LOCAL, ClusterBinding, "h", "b1")
  const OWNER: Fields := map["roleTemplateName" := Literal("cluster-owner")]

  function Bare(uid: string): Object {
    Object(uid, map[], [], false, map[])
  }

  /** The host has a cluster-owner binding of a group: it names no user. */
  const GROUP: Store := map[PROJECT := Bare("p"), BINDING := Bare("b").(body := OWNER)]

  /** One of the operator's own bindings has lost its user. */
  const USERLESS: Store := map[
    PROJECT := Bare("p"),
    NOBODYS := Object("m", map[LABEL_SERVICE_UID := "u"], [], false, OWNER)]

  /** An owner has been removed and added again, while the old grant is waiting for a finalizer. */
  const READDED: Store := map[
    PROJECT := Bare("p"),
    BINDING := Bare("b").(body := OWNER["userName" := Literal("ann")]),
    Key(LOCAL, ClusterBinding, "c", "vcluster-ann-co") :=
      Object("g", map[LABEL_SERVICE_UID := "u"], ["f"], true, OWNER["userName" := Literal("ann")])]

  function Under(s: Store): World {
    World(s, map["c" := ProjectGet])
  }

  lemma TargetReads()
    ensures ServiceUid(T) == "u" && HostName(T) == "h" && ProjectUid(T) == "p" && ProjectName(T) == "p1"
  {
    LookupsDistinct();
  }

  lemma BodyReads()
    ensures Str(OWNER, ["userName"]) == "" && Str(OWNER, ["roleTemplateName"]) == "cluster-owner"
    ensures Str(OWNER["userName" := Literal("ann")], ["userName"]) == "ann"
    ensures Str(OWNER["userName" := Literal("ann")], ["roleTemplateName"]) == "cluster-owner"
  {
    assert "userName" != "roleTemplateName";
  }

  /** A pass over `s` from its first call to its end, without a failed call. */
  ghost predicate Settles(s: Store, run: seq<Event>) {
    Inv(TS, Under(s)) && Ran(TS, Under(s), run) && FaultFreePass(run, "c") && PassOf(End(TS, Under(s), run), "c").Finished?
  }

  lemma SomePass(s: Store) returns (run: seq<Event>)
    requires Inv(TS, Under(s))
    ensures Settles(s, run)
  {
    hide Inv;
    run := SomeFaultFreePass(TS, Under(s), [], "c");
  }

  lemma GroupIsStart()
    ensures Inv(TS, Under(GROUP)) && IsHostSource(GROUP, T, BINDING) && User(GROUP[BINDING]) == ""
  {
    TargetReads();
    BodyReads();
  }

  /** A host binding without a user, as of a group, makes every pass fail, though no call does. */
  lemma GroupBindingFailsPasses() returns (run: seq<Event>)
    ensures Settles(GROUP, run) && PassOf(End(TS, Under(GROUP), run), "c") != DONE
  {
    GroupIsStart();
    hide Inv, Can, Do, IsHostSource, User, ProjectIsTheOne, ManagedHaveUsers, OwnersGrantsStand;
    run := SomePass(GROUP);
    FaultFreePassSettles(TS, Under(GROUP), run, "c", []);
    assert IsSource(GROUP, T, BINDING);
  }

  lemma UserlessBindings()
    ensures forall k :: IsManaged(USERLESS, T, k) <==> k == NOBODYS
    ensures NOBODYS in USERLESS && User(USERLESS[NOBODYS]) == ""
    ensures forall u | GrantKey(T, u) in USERLESS :: u == ""
  {
    TargetReads();
    BodyReads();
    hide Str;
    forall u | GrantKey(T, u) in USERLESS
      ensures u == ""
    {
      GrantKeysDiffer(T, u, "");
      assert "vcluster-" + "" + "-co" == "vcluster--co";
    }
  }

  lemma UserlessIsStart()
    ensures Inv(TS, Under(USERLESS)) && IsManaged(USERLESS, T, NOBODYS) && User(USERLESS[NOBODYS]) == ""
  {
    UserlessBindings();
    assert "vcluster-" + "" + "-co" == "vcluster--co";
    assert GrantKey(T, "") == NOBODYS;
    hide User, IsManaged;
    assert WellNamed(USERLESS, T);
  }

  /** So does a binding of the operator's own without a user. */
  lemma UserlessGrantFailsPasses() returns (run: seq<Event>)
    ensures Settles(USERLESS, run) && PassOf(End(TS, Under(USERLESS), run), "c") != DONE
  {
    UserlessIsStart();
    hide Inv, Can, Do, IsManaged, User, ProjectIsTheOne, SourcesHaveUsers, OwnersGrantsStand;
    run := SomePass(USERLESS);
    FaultFreePassSettles(TS, Under(USERLESS), run, "c", []);
  }

  const GRANT := Key(LOCAL, ClusterBinding, "c", "vcluster-ann-co")

  lemma ReAddedBindings()
    ensures forall k :: IsManaged(READDED, T, k) <==> k == GRANT
    ensures forall k :: IsHostSource(READDED, T, k) <==> k == BINDING
    ensures forall k :: !IsProjectSource(READDED, T, k)
    ensures User(READDED[GRANT]) == "ann" && User(READDED[BINDING]) == "ann" && ProjectIsTheOne(READDED, T)
  {
    TargetReads();
    BodyReads();
    hide Str;
  }

  lemma ReAddedIsStart()
    ensures Inv(TS, Under(READDED)) && InOrder(READDED, T) && IsHostSource(READDED, T, BINDING)
    ensures User(READDED[BINDING]) == "ann" && GrantKey(T, "ann") in READDED && READDED[GrantKey(T, "ann")].deleting
  {
    ReAddedBindings();
    assert "vcluster-" + "ann" + "-co" == "vcluster-ann-co";
    assert GrantKey(T, "ann") == GRANT;
    hide User, IsManaged, IsHostSource, IsProjectSource, ProjectIsTheOne;
    forall u | GrantKey(T, u) in READDED
      ensures u == "ann"
    {
      assert GrantKey(T, u) == GRANT;
      GrantKeysDiffer(T, u, "ann");
    }
  }

  /** And where an owner is added again while the old grant is still going, the pass ends without an error, and the
      owner has no binding in force. */
  lemma ReAddedOwnerIsNotServed() returns (run: seq<Event>)
    ensures Settles(READDED, run) && PassOf(End(TS, Under(READDED), run), "c") == DONE
    ensures IsOwner(READDED, T, "ann") && !OwnersServed(READDED, End(TS, Under(READDED), run).store, T)
  {
    ReAddedIsStart();
    hide Inv, Can, Do, IsHostSource, User, InOrder, GrantKey, OwnersServed;
    run := SomePass(READDED);
    FaultFreePassSettles(TS, Under(READDED), run, "c", []);
    assert IsSource(READDED, T, BINDING);
    assert IsOwner(READDED, T, "ann");
  }
}
