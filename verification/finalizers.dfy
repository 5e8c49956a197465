/** The finalizer that holds a management cluster until its vCluster app is uninstalled: the handler's additions
    and removals, `SyncCleanup`'s removals, and the account of both. */
module Finalizers {
  import opened Text
  import opened Api
  import opened Constants
  import opened Naming
  import opened HandlerProgram

  /** What `SyncCleanup` decides before it touches the cluster. */
  datatype Decision = Leave | Refuse | Edit(change: Change)

  /** `uninstalled` is the outcome of the request to uninstall the app. */
  function Decide(obj: Object, uninstalled: bool): Decision {
    if !obj.deleting || Lookup(obj.labels, LABEL_TARGET_APP) == "" then Leave
    else if ParseHalves(Lookup(obj.labels, LABEL_TARGET_APP), '_').None? || !uninstalled then Refuse
    else if FINALIZER_APP !in obj.finalizers then Leave
    else Edit(Change(obj.labels, obj.labels, obj.finalizers, WithoutFirst(obj.finalizers, FINALIZER_APP)))
  }

  /** How often the app finalizer is listed. */
  function Holds(finalizers: seq<string>): nat {
    multiset(finalizers)[FINALIZER_APP]
  }

  /** The other finalizers, in order. */
  function Others(finalizers: seq<string>): seq<string> {
    if finalizers == [] then []
    else (if finalizers[0] == FINALIZER_APP then [] else [finalizers[0]]) + Others(finalizers[1..])
  }

  lemma HoldsStep(fs: seq<string>)
    requires fs != []
    ensures Holds(fs) == (if fs[0] == FINALIZER_APP then 1 else 0) + Holds(fs[1..])
  {
    assert fs == [fs[0]] + fs[1..];
  }

  /** Removing the first occurrence takes exactly one and leaves the others in order and number. */
  lemma {:induction false} RemovedOne(fs: seq<string>)
    ensures Others(WithoutFirst(fs, FINALIZER_APP)) == Others(fs)
    ensures Holds(WithoutFirst(fs, FINALIZER_APP)) == if FINALIZER_APP in fs then Holds(fs) - 1 else Holds(fs)
    ensures FINALIZER_APP !in fs ==> WithoutFirst(fs, FINALIZER_APP) == fs
  {
    if fs != [] {
      HoldsStep(fs);
      if fs[0] != FINALIZER_APP {
        RemovedOne(fs[1..]);
        var shorter := [fs[0]] + WithoutFirst(fs[1..], FINALIZER_APP);
        HoldsStep(shorter);
        assert shorter[1..] == WithoutFirst(fs[1..], FINALIZER_APP);
        assert FINALIZER_APP in fs <==> FINALIZER_APP in fs[1..];
      }
    }
  }

  lemma {:induction false} AddedOne(fs: seq<string>)
    ensures Others(fs + [FINALIZER_APP]) == Others(fs) && Holds(fs + [FINALIZER_APP]) == Holds(fs) + 1
  {
    if fs != [] {
      HoldsStep(fs);
      AddedOne(fs[1..]);
      assert (fs + [FINALIZER_APP])[1..] == fs[1..] + [FINALIZER_APP];
    }
  }

  lemma OthersOrHolds(fs: seq<string>)
    ensures fs == [] <==> Others(fs) == [] && Holds(fs) == 0
  {
    if fs != [] {
      HoldsStep(fs);
    }
  }

  /** What a service's reconcile does to the finalizers of its management cluster: while the provisioning cluster
      is not ready it adds the app finalizer exactly once when the service asks for uninstallation and removes
      one otherwise; once it is ready it changes nothing. The other finalizers always stay. */
  lemma HandlerAccount(h: Host, svc: Service, ready: bool, mgmt: Object)
    ensures
      var change := MgmtChange(h, svc, ready, mgmt);
      var after := Patched(mgmt, change).finalizers;
      && change.oldFinalizers == mgmt.finalizers
      && Others(after) == Others(mgmt.finalizers)
      && Holds(after) == (if ready then Holds(mgmt.finalizers)
                          else if Lookup(svc.annotations, ANNOTATION_UNINSTALL) == "true" then Holds(mgmt.finalizers) + 1
                          else if FINALIZER_APP in mgmt.finalizers then Holds(mgmt.finalizers) - 1
                          else 0)
  {
    AddedOne(mgmt.finalizers);
    RemovedOne(mgmt.finalizers);
    assert FINALIZER_APP !in mgmt.finalizers ==> Holds(mgmt.finalizers) == 0;
  }

  // ---- cleaning up ----

  /** The cluster is going and its target-app label can be read. */
  predicate Cleanable(obj: Object) {
    obj.deleting && ParseHalves(Lookup(obj.labels, LABEL_TARGET_APP), '_').Some?
  }

  /** A cleanup gets as far as its edit exactly on a deleting cluster with a readable label, after a successful
      uninstall, while the finalizer is there; the edit removes one occurrence and nothing else. */
  lemma CleanupAccount(obj: Object, uninstalled: bool)
    ensures Decide(obj, uninstalled).Edit? <==> Cleanable(obj) && uninstalled && Holds(obj.finalizers) > 0
    ensures Decide(obj, uninstalled).Edit? ==>
      var after := Patched(obj, Decide(obj, uninstalled).change);
      && Holds(after.finalizers) == Holds(obj.finalizers) - 1
      && Others(after.finalizers) == Others(obj.finalizers)
      && after == obj.(finalizers := after.finalizers)
      && Admits(obj, Decide(obj, uninstalled).change)
  {
    RemovedOne(obj.finalizers);
    WithoutFirstWithin(obj.finalizers, FINALIZER_APP);
    HoldsPresent(obj.finalizers);
    EmptyIsNoPair();
    assert MergedLabels(obj.labels, obj.labels, obj.labels) == obj.labels;
    hide ParseHalves, MergedLabels, Others, Holds, WithoutFirst;
  }

  /** A cleanup is refused exactly on a deleting cluster with a target-app label that cannot be read or whose app could
      not be uninstalled. */
  lemma RefusedExactly(obj: Object, uninstalled: bool)
    ensures Decide(obj, uninstalled).Refuse? <==>
      obj.deleting && Lookup(obj.labels, LABEL_TARGET_APP) != "" && !(Cleanable(obj) && uninstalled)
  {
    EmptyIsNoPair();
    hide ParseHalves;
  }

  lemma EmptyIsNoPair()
    ensures ParseHalves("", '_').None?
  {
    assert Split("", '_') == [""];
  }

  lemma HoldsPresent(fs: seq<string>)
    ensures FINALIZER_APP in fs <==> Holds(fs) > 0
  {
  }

  /** The states of a cluster's store entry under successful cleanups, each on what the one before left. */
  function AfterCleanups(s: Store, key: Key, n: nat): Store {
    if n == 0 then s
    else
      var before := AfterCleanups(s, key, n - 1);
      if key !in before then before
      else
        match Decide(before[key], true)
        case Edit(change) => Stored(before, key, Patched(before[key], change))
        case _ => before
  }

  /** With no further additions, every successful cleanup of a deleting cluster takes exactly one occurrence until
      none is left, and after that cleanups change nothing; then the cluster is held by its other finalizers only,
      and is gone if there are none. Nothing else in the store changes. */
  lemma {:induction false} CleanupsRunOut(s: Store, key: Key, n: nat)
    requires key in s && Cleanable(s[key])
    ensures var after, held := AfterCleanups(s, key, n), Holds(s[key].finalizers);
      && (key !in after <==> 0 < held <= n && Others(s[key].finalizers) == [])
      && (key in after ==> Holds(after[key].finalizers) == (if n <= held then held - n else 0)
                           && Others(after[key].finalizers) == Others(s[key].finalizers)
                           && after[key] == s[key].(finalizers := after[key].finalizers))
      && (forall k | k != key :: (k in after <==> k in s) && (k in s ==> after[k] == s[k]))
    decreases n
  {
    hide ParseHalves, Holds, Others, MergedLabels;
    if n > 0 {
      CleanupsRunOut(s, key, n - 1);
      var before := AfterCleanups(s, key, n - 1);
      if key in before {
        CleanupAccount(before[key], true);
        match Decide(before[key], true)
        case Edit(change) => OthersOrHolds(Patched(before[key], change).finalizers);
        case _ =>
      }
    }
  }

  /** The target-app label the handler writes can be read back exactly when neither the release's namespace nor
      its name has an underscore; with one, every cleanup is refused and the cluster can never go. */
  lemma TargetAppReadable(svc: Service)
    ensures
      var ns := Lookup(svc.annotations, ANNOTATION_RELEASE_NAMESPACE);
      var name := Lookup(svc.annotations, ANNOTATION_RELEASE_NAME);
      && (ParseHalves(TargetApp(svc), '_').Some? <==> '_' !in ns && '_' !in name)
      && ('_' !in ns && '_' !in name ==> ParseHalves(TargetApp(svc), '_') == Some((ns, name)))
  {
    var ns := Lookup(svc.annotations, ANNOTATION_RELEASE_NAMESPACE);
    PrintedPairParses(ns, Lookup(svc.annotations, ANNOTATION_RELEASE_NAME), '_');
    assert "_" == ['_'];
  }

  /** The handler's patch and the label: a pending reconcile of an uninstall-annotated service leaves a cluster
      that, once it is deleted, can be cleaned up exactly if the label can be read. */
  lemma AnnotatedIsCleanable(h: Host, svc: Service, mgmt: Object)
    requires Lookup(svc.annotations, ANNOTATION_UNINSTALL) == "true"
    ensures
      var after := Patched(mgmt, MgmtChange(h, svc, false, mgmt)).(deleting := true);
      Decide(after, true).Edit? <==>
        ('_' !in Lookup(svc.annotations, ANNOTATION_RELEASE_NAMESPACE)
         && '_' !in Lookup(svc.annotations, ANNOTATION_RELEASE_NAME))
  {
    TargetAppReadable(svc);
    HandlerAccount(h, svc, false, mgmt);
    var patched := Patched(mgmt, MgmtChange(h, svc, false, mgmt));
    CleanupAccount(patched.(deleting := true), true);
    hide ParseHalves, TargetApp;
    assert LABEL_TARGET_APP in patched.labels && patched.labels[LABEL_TARGET_APP] == TargetApp(svc);
  }

  // ---- over whole lives ----

  /** A step in a management cluster's life, as far as its finalizers go: a reconcile of its service, a delete by
      anyone, or a successful cleanup. */
  datatype Step = Serve(svc: Service, ready: bool) | Mark | Clean

  /** The cluster as it is stored, or None once it has been deleted and its last finalizer is gone. */
  function Kept(obj: Object): Option<Object> {
    if obj.deleting && obj.finalizers == [] then None else Some(obj)
  }

  function Stepped(h: Host, obj: Object, e: Step): Option<Object> {
    match e
    case Serve(svc, ready) =>
      var change := MgmtChange(h, svc, ready, obj);
      if Admits(obj, change) then Kept(Patched(obj, change)) else Some(obj)
    case Mark => Kept(obj.(deleting := true))
    case Clean =>
      match Decide(obj, true)
      case Edit(change) => Kept(Patched(obj, change))
      case _ => Some(obj)
  }

  function Life(h: Host, obj: Object, steps: seq<Step>): Option<Object>
    decreases |steps|
  {
    if steps == [] then Some(obj)
    else
      match Life(h, obj, steps[..|steps| - 1])
      case Some(now) => Stepped(h, now, steps[|steps| - 1])
      case None => None
  }

  function HoldsNow(now: Option<Object>): nat {
    if now.Some? then Holds(now.value.finalizers) else 0
  }

  function OthersNow(now: Option<Object>): seq<string> {
    if now.Some? then Others(now.value.finalizers) else []
  }

  /** A pending reconcile of an annotated service, which the server takes: it refuses the finalizer where it would
      be new to a cluster that is being deleted. */
  predicate Adds(obj: Object, e: Step) {
    && e.Serve? && !e.ready && Lookup(e.svc.annotations, ANNOTATION_UNINSTALL) == "true"
    && (obj.deleting ==> FINALIZER_APP in obj.finalizers)
  }

  /** The pending annotated reconciles that the server took while the cluster was there. */
  function Additions(h: Host, obj: Object, steps: seq<Step>): nat
    decreases |steps|
  {
    if steps == [] then 0
    else
      var before := steps[..|steps| - 1];
      var now := Life(h, obj, before);
      Additions(h, obj, before) + if now.Some? && Adds(now.value, steps[|steps| - 1]) then 1 else 0
  }

  /** The steps that found an occurrence and removed it. */
  function Removals(h: Host, obj: Object, steps: seq<Step>): nat
    decreases |steps|
  {
    if steps == [] then 0
    else
      var before := steps[..|steps| - 1];
      Removals(h, obj, before) + if HoldsNow(Life(h, obj, steps)) < HoldsNow(Life(h, obj, before)) then 1 else 0
  }

  /** Over any life, from service to deletion to cleanup, the account balances: occurrences at the end are those at
      the beginning, plus one per pending annotated reconcile, minus one per removal; all other finalizers are where
      they were; and the cluster is gone only with its account settled and no other finalizer on it. */
  lemma {:induction false} AccountBalances(h: Host, obj: Object, steps: seq<Step>)
    ensures OthersNow(Life(h, obj, steps)) == Others(obj.finalizers)
    ensures HoldsNow(Life(h, obj, steps)) + Removals(h, obj, steps) == Holds(obj.finalizers) + Additions(h, obj, steps)
    decreases |steps|
  {
    hide Stepped, Others, Holds;
    if steps != [] {
      var before := steps[..|steps| - 1];
      AccountBalances(h, obj, before);
      if Life(h, obj, before).Some? {
        StepBalances(h, Life(h, obj, before).value, steps[|steps| - 1]);
      }
    }
  }

  lemma WithoutFirstWithin(s: seq<string>, x: string)
    ensures forall f | f in WithoutFirst(s, x) :: f in s
  {
  }

  /** The server refuses a reconcile's patch exactly if it would add the finalizer to a cluster that is being deleted
      and does not have it. */
  lemma AdmittedExactly(h: Host, svc: Service, ready: bool, mgmt: Object)
    ensures Admits(mgmt, MgmtChange(h, svc, ready, mgmt)) <==>
      !(!ready && Lookup(svc.annotations, ANNOTATION_UNINSTALL) == "true" && mgmt.deleting
        && FINALIZER_APP !in mgmt.finalizers)
  {
    WithoutFirstWithin(mgmt.finalizers, FINALIZER_APP);
    var appended := mgmt.finalizers + [FINALIZER_APP];
    assert appended[|mgmt.finalizers|] == FINALIZER_APP;
    assert forall f :: f in appended <==> f in mgmt.finalizers || f == FINALIZER_APP;
    hide MergedLabels, WithoutFirst, TargetApp;
  }

  lemma KeptHolds(obj: Object)
    ensures HoldsNow(Kept(obj)) == Holds(obj.finalizers) && OthersNow(Kept(obj)) == Others(obj.finalizers)
  {
    OthersOrHolds(obj.finalizers);
  }

  lemma StepBalances(h: Host, now: Object, e: Step)
    ensures OthersNow(Stepped(h, now, e)) == Others(now.finalizers)
    ensures var after := HoldsNow(Stepped(h, now, e));
      after == Holds(now.finalizers) + (if Adds(now, e) then 1 else 0) - (if after < Holds(now.finalizers) then 1 else 0)
  {
    match e
    case Serve(svc, ready) =>
      HandlerAccount(h, svc, ready, now);
      KeptHolds(Patched(now, MgmtChange(h, svc, ready, now)));
      HoldsPresent(now.finalizers);
      AdmittedExactly(h, svc, ready, now);
      hide Admits, MgmtChange, Patched, Others, Holds, Kept;
    case Mark => KeptHolds(now.(deleting := true));
    case Clean =>
      CleanupAccount(now, true);
      hide Patched, Others, Holds, Kept;
      match Decide(now, true)
      case Edit(change) => KeptHolds(Patched(now, change));
      case _ =>
  }
}
