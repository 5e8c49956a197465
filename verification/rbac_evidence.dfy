/** What every run of an ownership pass has read and done before it revokes anything, whatever the servers reply
    and whoever changes bindings in between. */
module RbacEvidence {
  import opened Text
  import opened Api
  import opened Calls
  import opened Rbac
  import RbacSteps

  predicate Confirms(t: Target, a: Action, user: string) {
    || (a.Get? && a.key == GrantKey(t, user) && a.got.Ok?)
    || (a.Create? && a.key == GrantKey(t, user) && a.done.Ok?)
  }

  /** The run has found or made this user's grant. */
  ghost predicate Confirmed(t: Target, run: seq<Action>, user: string) {
    exists i | 0 <= i < |run| :: Confirms(t, run[i], user)
  }

  ghost predicate AllConfirmed(t: Target, run: seq<Action>, sources: seq<Entry>, n: nat) {
    forall i | 0 <= i < n && i < |sources| :: User(sources[i].obj) != "" && Confirmed(t, run, User(sources[i].obj))
  }

  predicate IsBindings(a: Action, ns: string, listed: seq<Entry>) {
    a == Action.List(Query(LOCAL, ProjectBinding, if ns == "" then None else Some(ns), Anything), Ok(listed))
  }

  /** The run has listed project bindings of which exactly these count. */
  ghost predicate ReadProject(t: Target, run: seq<Action>, projectSources: seq<Entry>) {
    exists i, ns, listed | 0 <= i < |run| && IsBindings(run[i], ns, listed) :: projectSources == ProjectSources(t, listed)
  }

  /** These are the sources by the two listings of the run. */
  ghost predicate ReadSources(t: Target, run: seq<Action>, sources: seq<Entry>) {
    exists i, listed, projectSources | 0 <= i < |run| && run[i] == Action.List(HostBindings(t), Ok(listed)) ::
      ReadProject(t, run, projectSources) && sources == projectSources + HostSources(listed)
  }

  ghost predicate ReadManaged(t: Target, run: seq<Action>, managed: seq<Entry>) {
    exists i | 0 <= i < |run| :: run[i] == Action.List(ManagedBindings(t), Ok(managed))
  }

  /** The owners are the users of the sources that were read, and each was found or given a grant. */
  ghost predicate Backed(t: Target, run: seq<Action>, owners: set<string>) {
    exists sources :: ReadSources(t, run, sources) && AllConfirmed(t, run, sources, |sources|) && owners == Users(sources)
  }

  ghost predicate Granting(t: Target, run: seq<Action>, sources: seq<Entry>, i: nat, failed: bool) {
    ReadSources(t, run, sources) && i < |sources| && User(sources[i].obj) != ""
    && (!failed ==> AllConfirmed(t, run, sources, i))
  }

  /** What a pass that stands at `pc` has read and made sure of. */
  ghost predicate Evidence(t: Target, pc: Pc, run: seq<Action>) {
    match pc
    case CrtbList(projectSources) => ReadProject(t, run, projectSources)
    case GrantGet(sources, i, failed) => Granting(t, run, sources, i, failed)
    case GrantCreate(sources, i, failed) => Granting(t, run, sources, i, failed)
    case ManagedList(owners) => Backed(t, run, owners)
    case Revoke(owners, managed, i, _) =>
      Backed(t, run, owners) && ReadManaged(t, run, managed) && i < |managed| && User(managed[i].obj) !in owners
    case _ => true
  }

  lemma MoreConfirmed(t: Target, run: seq<Action>, a: Action, sources: seq<Entry>, n: nat)
    requires AllConfirmed(t, run, sources, n)
    ensures AllConfirmed(t, run + [a], sources, n)
    ensures n < |sources| && User(sources[n].obj) != "" && Confirms(t, a, User(sources[n].obj)) ==>
      AllConfirmed(t, run + [a], sources, n + 1)
  {
    var more := run + [a];
    assert forall i | 0 <= i < |run| :: more[i] == run[i];
    assert more[|run|] == a;
    hide User, GrantKey;
  }

  lemma MoreProjectRead(t: Target, run: seq<Action>, a: Action, projectSources: seq<Entry>)
    requires ReadProject(t, run, projectSources)
    ensures ReadProject(t, run + [a], projectSources)
  {
    hide ProjectSources;
    var i, ns, listed :| 0 <= i < |run| && IsBindings(run[i], ns, listed) && projectSources == ProjectSources(t, listed);
    assert IsBindings((run + [a])[i], ns, listed);
  }

  lemma MoreSourcesRead(t: Target, run: seq<Action>, a: Action, sources: seq<Entry>)
    requires ReadSources(t, run, sources)
    ensures ReadSources(t, run + [a], sources)
  {
    hide ReadProject, HostSources, HostBindings;
    var i, listed, projectSources :| 0 <= i < |run| && run[i] == Action.List(HostBindings(t), Ok(listed))
      && ReadProject(t, run, projectSources) && sources == projectSources + HostSources(listed);
    MoreProjectRead(t, run, a, projectSources);
    assert (run + [a])[i] == run[i];
  }

  lemma StillBacked(t: Target, run: seq<Action>, a: Action, owners: set<string>)
    requires Backed(t, run, owners)
    ensures Backed(t, run + [a], owners)
  {
    hide ReadSources, AllConfirmed, Users;
    var sources :| ReadSources(t, run, sources) && AllConfirmed(t, run, sources, |sources|) && owners == Users(sources);
    MoreSourcesRead(t, run, a, sources);
    MoreConfirmed(t, run, a, sources, |sources|);
  }

  lemma {:induction false} GrantEvidence(t: Target, run: seq<Action>, sources: seq<Entry>, i: nat, failed: bool)
    requires ReadSources(t, run, sources) && (!failed ==> AllConfirmed(t, run, sources, i))
    ensures Evidence(t, GrantAt(sources, i, failed), run)
    decreases |sources| - i
  {
    hide ReadSources, Confirmed, Users, User;
    if i >= |sources| {
      assert !failed ==> AllConfirmed(t, run, sources, |sources|);
    } else if User(sources[i].obj) == "" {
      GrantEvidence(t, run, sources, i + 1, true);
    }
  }

  lemma {:induction false} RevokeEvidence(t: Target, run: seq<Action>, owners: set<string>, managed: seq<Entry>, i: nat,
                                          failed: bool)
    requires Backed(t, run, owners) && ReadManaged(t, run, managed)
    ensures Evidence(t, RevokeAt(owners, managed, i, failed), run)
    decreases |managed| - i
  {
    hide Backed, ReadManaged, User;
    if i < |managed| {
      RevokeEvidence(t, run, owners, managed, i + 1, true);
      RevokeEvidence(t, run, owners, managed, i + 1, failed);
    }
  }

  lemma Granted(t: Target, run: seq<Action>, sources: seq<Entry>, i: nat, failed: bool, a: Action)
    requires Granting(t, run, sources, i, failed)
    ensures Granting(t, run + [a], sources, i, failed)
    ensures Evidence(t, GrantAt(sources, i + 1, true), run + [a])
    ensures Confirms(t, a, User(sources[i].obj)) ==> Evidence(t, GrantAt(sources, i + 1, failed), run + [a])
  {
    hide ReadSources, AllConfirmed, GrantAt, Confirms, User, Evidence;
    MoreSourcesRead(t, run, a, sources);
    GrantEvidence(t, run + [a], sources, i + 1, true);
    if !failed {
      MoreConfirmed(t, run, a, sources, i);
    }
    if failed || Confirms(t, a, User(sources[i].obj)) {
      GrantEvidence(t, run + [a], sources, i + 1, failed);
    }
  }

  lemma GrantGetStep(t: Target, pc: Pc, run: seq<Action>, a: Action)
    requires pc.GrantGet? && Evidence(t, pc, run) && Answers(Asks(t, pc), a)
    ensures Evidence(t, Next(t, pc, a), run + [a])
  {
    hide Granting, GrantAt, User;
    Granted(t, run, pc.sources, pc.i, pc.failed, a);
  }

  lemma GrantCreateStep(t: Target, pc: Pc, run: seq<Action>, a: Action)
    requires pc.GrantCreate? && Evidence(t, pc, run) && Answers(Asks(t, pc), a)
    ensures Evidence(t, Next(t, pc, a), run + [a])
  {
    hide ReadSources, AllConfirmed, GrantAt, User, Asks, Next, Answers;
    RbacSteps.CreateReply(t, pc, a);
    Granted(t, run, pc.sources, pc.i, pc.failed, a);
  }

  lemma ReadStep(t: Target, pc: Pc, run: seq<Action>, a: Action)
    requires pc.PrtbList? || pc.CrtbList?
    requires Evidence(t, pc, run) && Answers(Asks(t, pc), a)
    ensures Evidence(t, Next(t, pc, a), run + [a])
  {
    hide ProjectSources, HostSources, HostBindings, GrantAt, User;
    assert (run + [a])[|run|] == a;
    if a.items.Ok? {
      if pc.PrtbList? {
        assert IsBindings((run + [a])[|run|], pc.namespace, a.items.value);
      } else {
        MoreProjectRead(t, run, a, pc.projectSources);
        GrantEvidence(t, run + [a], pc.projectSources + HostSources(a.items.value), 0, false);
      }
    }
  }

  lemma RevokeStep(t: Target, pc: Pc, run: seq<Action>, a: Action)
    requires pc.ManagedList? || pc.Revoke?
    requires Evidence(t, pc, run) && Answers(Asks(t, pc), a)
    ensures Evidence(t, Next(t, pc, a), run + [a])
  {
    hide Backed, RevokeAt, User, ManagedBindings;
    StillBacked(t, run, a, pc.owners);
    assert (run + [a])[|run|] == a;
    if pc.ManagedList? {
      if a.items.Ok? {
        RevokeEvidence(t, run + [a], pc.owners, a.items.value, 0, false);
      }
    } else {
      assert forall i | 0 <= i < |run| :: (run + [a])[i] == run[i];
      RevokeEvidence(t, run + [a], pc.owners, pc.managed, pc.i + 1, pc.failed || !(a.done.Ok? || a.done.NotFound?));
    }
  }

  lemma EvidenceStep(t: Target, pc: Pc, run: seq<Action>, a: Action)
    requires Evidence(t, pc, run) && Answers(Asks(t, pc), a)
    ensures Evidence(t, Next(t, pc, a), run + [a])
  {
    if pc.GrantGet? {
      hide Evidence, Next, Asks;
      GrantGetStep(t, pc, run, a);
    } else if pc.GrantCreate? {
      hide Evidence, Next, Asks;
      GrantCreateStep(t, pc, run, a);
    } else if pc.PrtbList? || pc.CrtbList? {
      hide Evidence, Next, Asks;
      ReadStep(t, pc, run, a);
    } else if pc.ManagedList? || pc.Revoke? {
      hide Evidence, Next, Asks;
      RevokeStep(t, pc, run, a);
    }
  }

  lemma {:induction false} EvidenceGathered(t: Target, run: seq<Action>)
    requires Follows(Pass(t), Start(t), run)
    ensures Evidence(t, Reached(Pass(t), Start(t), run), run)
    decreases |run|
  {
    hide Evidence, Next, Asks;
    if run == [] {
      StartsWithNone(t);
    } else {
      var before := run[..|run| - 1];
      EvidenceGathered(t, before);
      EvidenceStep(t, Reached(Pass(t), Start(t), before), before, run[|run| - 1]);
      assert run == before + [run[|run| - 1]];
    }
  }

  lemma StartsWithNone(t: Target)
    ensures Evidence(t, Start(t), [])
  {
  }

  /** In every run of a pass, with any replies and any changes by others in between: what it deletes is a binding it
      has listed as the operator's own for this cluster, of a user who is none of the owners by the bindings the
      run has read; and by then every one of these owners' grants has been found or made in the run, and none of
      the selected bindings was without a user. */
  lemma RevokesOnlyAfterGranting(t: Target, run: seq<Action>, a: Action)
    requires Follows(Pass(t), Start(t), run + [a]) && a.Delete?
    ensures exists owners, managed: seq<Entry>, i: nat ::
      Backed(t, run, owners) && ReadManaged(t, run, managed)
      && i < |managed| && a.key == managed[i].key && User(managed[i].obj) !in owners
  {
    hide Backed, ReadManaged, User, GrantBody, GrantLabels;
    assert (run + [a])[..|run|] == run;
    EvidenceGathered(t, run);
    var pc := Reached(Pass(t), Start(t), run);
    assert pc.Revoke? by { OnlyRevokeDeletes(t, pc, a); }
  }

  lemma OnlyRevokeDeletes(t: Target, pc: Pc, a: Action)
    requires Answers(Asks(t, pc), a) && a.Delete?
    ensures pc.Revoke? && pc.i < |pc.managed| && a.key == pc.managed[pc.i].key
  {
    hide User, GrantBody, GrantLabels;
  }
}
