/** The order in which passes of different clusters take their steps makes no difference: two interleavings of
    the same passes, with the same replies, are both possible or both impossible and end in the same world,
    even where one vCluster's Rancher cluster hosts another. */
module RbacOrder {
  import opened Api
  import opened Calls
  import opened Rbac
  import opened RbacSteps
  import opened RbacRuns

  /** A listing of what other passes do not touch stays a listing. */
  lemma ListingSeenAlike(s: Store, s': Store, q: Query, items: seq<Entry>)
    requires forall k :: (k in s && Matches(q, k, s[k])) <==> (k in s' && Matches(q, k, s'[k]))
    requires forall k | k in s && k in s' && Matches(q, k, s[k]) :: s[k] == s'[k]
    requires IsListing(s, q, items)
    ensures IsListing(s', q, items)
  {
    hide Matches;
  }

  /** What the pass of another cluster lists: base objects, or its own namespace. */
  lemma ListedSeenAlike(s: Store, s': Store, name: string, t: Target, pc: Pc, q: Query, k: Key)
    requires SameBase(s, s') && OnlyWithin(s, s', name) && t.name != name && Asks(t, pc) == AskList(q)
    ensures (k in s && Matches(q, k, s[k])) <==> (k in s' && Matches(q, k, s'[k]))
    ensures k in s && k in s' && Matches(q, k, s[k]) ==> s[k] == s'[k]
  {
    assert IsBase(s, k) <==> IsBase(s', k);
    if !InNamespace(name, k) {
      assert SameKey(s, s', k);
    }
  }

  /** The one object a pass asks for by key is not in another cluster's namespace. */
  lemma KeyAskedElsewhere(s: Store, name: string, t: Target, pc: Pc, a: Action)
    requires t.name != name && Knows(s, t, pc) && Answers(Asks(t, pc), a) && !a.List?
    ensures !InNamespace(name, a.key)
  {
    hide User, IsManaged, IsOwner, AllGranted, SourcesAre;
    if pc.Revoke? {
      assert pc.managed[pc.i] in pc.managed;
    }
  }

  lemma KeyReplySeenAlike(s: Store, s': Store, a: Action)
    requires !a.List? && SameKey(s, s', a.key)
    ensures Enabled(s, a) ==> Enabled(s', a)
  {
  }

  /** A step of one cluster's pass changes no reply that a pass of another cluster can get. */
  lemma RepliesSeenAlike(s: Store, s': Store, name: string, t: Target, pc: Pc, a: Action)
    requires SameBase(s, s') && OnlyWithin(s, s', name) && t.name != name
    requires Knows(s, t, pc) && Answers(Asks(t, pc), a) && Enabled(s, a)
    ensures Enabled(s', a)
  {
    hide SameBase, OnlyWithin, IsListing, Matches, User, Knows;
    if !a.List? {
      KeyAskedElsewhere(s, name, t, pc, a);
      assert SameKey(s, s', a.key) by { KeepsElsewhere(s, s', name, a.key); }
      KeyReplySeenAlike(s, s', a);
    } else if a.items.Ok? {
      forall k
        ensures (k in s && Matches(a.query, k, s[k])) <==> (k in s' && Matches(a.query, k, s'[k]))
        ensures k in s && k in s' && Matches(a.query, k, s[k]) ==> s[k] == s'[k]
      {
        ListedSeenAlike(s, s', name, t, pc, a.query, k);
      }
      ListingSeenAlike(s, s', a.query, a.items.value);
    }
  }

  lemma KeepsElsewhere(s: Store, s': Store, name: string, key: Key)
    requires OnlyWithin(s, s', name) && !InNamespace(name, key)
    ensures SameKey(s, s', key)
  {
  }

  // ---- two steps of different clusters ----

  /** Where a call that changes the store changes it. */
  lemma ChangesOneKey(s: Store, a: Action)
    requires Enabled(s, a) && !a.List?
    ensures forall k | k != a.key :: SameKey(s, Apply(s, a), k)
  {
  }

  /** What a call makes of its own key depends on that key alone. */
  lemma OwnKeyAlone(s: Store, s': Store, a: Action)
    requires Enabled(s, a) && Enabled(s', a) && !a.List? && SameKey(s, s', a.key)
    ensures SameKey(Apply(s, a), Apply(s', a), a.key)
  {
  }

  lemma SameEverywhere(s: Store, s': Store)
    requires forall k :: SameKey(s, s', k)
    ensures s == s'
  {
    forall k
      ensures k in s <==> k in s'
      ensures k in s ==> s[k] == s'[k]
    {
      assert SameKey(s, s', k);
    }
  }

  lemma WritesCommute(s: Store, a: Action, b: Action)
    requires Enabled(s, a) && Enabled(s, b) && Enabled(Apply(s, a), b) && Enabled(Apply(s, b), a)
    requires !a.List? && !b.List? && a.key != b.key
    ensures Apply(Apply(s, a), b) == Apply(Apply(s, b), a)
  {
    var sa, sb := Apply(s, a), Apply(s, b);
    ChangesOneKey(s, a);
    ChangesOneKey(s, b);
    ChangesOneKey(sa, b);
    ChangesOneKey(sb, a);
    OwnKeyAlone(s, sb, a);
    OwnKeyAlone(s, sa, b);
    hide Apply, Enabled;
    forall k
      ensures SameKey(Apply(sa, b), Apply(sb, a), k)
    {
      assert SameKey(s, sa, k) || k == a.key;
      assert SameKey(s, sb, k) || k == b.key;
    }
    SameEverywhere(Apply(sa, b), Apply(sb, a));
  }

  predicate Reads(a: Action) {
    a.Get? || a.List?
  }

  lemma ReadsKeep(s: Store, a: Action)
    requires Enabled(s, a) && Reads(a)
    ensures Apply(s, a) == s
  {
  }

  lemma CallsCommute(s: Store, a: Action, b: Action)
    requires Enabled(s, a) && Enabled(s, b) && Enabled(Apply(s, a), b) && Enabled(Apply(s, b), a)
    requires Reads(a) || Reads(b) || a.key != b.key
    ensures Apply(Apply(s, a), b) == Apply(Apply(s, b), a)
  {
    hide Apply, Enabled;
    if Reads(a) {
      ReadsKeep(s, a);
      ReadsKeep(Apply(s, b), a);
    } else if Reads(b) {
      ReadsKeep(s, b);
      ReadsKeep(Apply(s, a), b);
    } else {
      WritesCommute(s, a, b);
    }
  }

  lemma StepWithin(ts: Targets, w: World, e: Event)
    requires Inv(ts, w) && e.Call? && Can(ts, w, e)
    ensures SameBase(w.store, Apply(w.store, e.a)) && OnlyWithin(w.store, Apply(w.store, e.a), e.name)
  {
    hide Knows, Asks, WellNamed, NoLeftovers, Enabled;
    WritesAreGrantsOrRevocations(w.store, ts[e.name], PassOf(w, e.name), e.a);
    WritesStayWithin(w.store, ts[e.name], e.a);
  }

  /** The write of a pass is in its own namespace. */
  lemma WriteKeyWithin(s: Store, t: Target, pc: Pc, a: Action)
    requires Knows(s, t, pc) && Answers(Asks(t, pc), a) && !Reads(a)
    ensures InNamespace(t.name, a.key)
  {
    hide User, IsManaged, IsOwner, AllGranted, SourcesAre;
    if pc.Revoke? {
      assert pc.managed[pc.i] in pc.managed;
    }
  }

  lemma OtherCallStillPossible(ts: Targets, w: World, e: Event, f: Event)
    requires Inv(ts, w) && e.Call? && f.Call? && e.name != f.name && Can(ts, w, e) && Can(ts, w, f)
    ensures Can(ts, Do(ts, w, e), f)
  {
    hide Knows, Asks, Next, WellNamed, NoLeftovers, SameBase, OnlyWithin;
    StepWithin(ts, w, e);
    RepliesSeenAlike(w.store, Apply(w.store, e.a), e.name, ts[f.name], PassOf(w, f.name), f.a);
  }

  lemma PossibleBefore(ts: Targets, w: World, e: Event, f: Event)
    requires Inv(ts, w) && e.Call? && f.Call? && e.name != f.name && Can(ts, w, e) && Can(ts, Do(ts, w, e), f)
    ensures Can(ts, w, f)
  {
    var w' := Do(ts, w, e);
    InvKept(ts, w, e);
    StepWithin(ts, w, e);
    hide Knows, Asks, Next, WellNamed, NoLeftovers, SameBase, OnlyWithin;
    SameBackwards(w.store, w'.store, e.name);
    RepliesSeenAlike(w'.store, w.store, e.name, ts[f.name], PassOf(w, f.name), f.a);
  }

  lemma SameBackwards(s: Store, s': Store, name: string)
    requires SameBase(s, s') && OnlyWithin(s, s', name)
    ensures SameBase(s', s) && OnlyWithin(s', s, name)
  {
    assert forall k | !InNamespace(name, k) :: SameKey(s, s', k);
  }

  /** Two steps of different clusters can change places. */
  lemma StepsCommute(ts: Targets, w: World, e: Event, f: Event)
    requires Inv(ts, w) && e.name != f.name && Can(ts, w, e) && Can(ts, Do(ts, w, e), f)
    ensures Can(ts, w, f) && Can(ts, Do(ts, w, f), e)
    ensures Do(ts, Do(ts, w, f), e) == Do(ts, Do(ts, w, e), f)
  {
    if e.Call? && f.Call? {
      CallStepsCommute(ts, w, e, f);
    } else {
      BeginCommutes(ts, w, e, f);
    }
  }

  lemma PassesCommute(passes: map<string, Pc>, n: string, pc: Pc, n': string, pc': Pc)
    requires n != n'
    ensures passes[n := pc][n' := pc'] == passes[n' := pc'][n := pc]
  {
  }

  lemma BeginCommutes(ts: Targets, w: World, e: Event, f: Event)
    requires (e.Begin? || f.Begin?) && e.name != f.name && Can(ts, w, e) && Can(ts, Do(ts, w, e), f)
    ensures Can(ts, w, f) && Can(ts, Do(ts, w, f), e)
    ensures Do(ts, Do(ts, w, f), e) == Do(ts, Do(ts, w, e), f)
  {
    hide Asks, Next, Start, Enabled, Apply, Answers;
    assert PassOf(Do(ts, w, e), f.name) == PassOf(w, f.name);
    assert PassOf(Do(ts, w, f), e.name) == PassOf(w, e.name);
    var to := if e.Begin? then Start(ts[e.name]) else Next(ts[e.name], PassOf(w, e.name), e.a);
    var to' := if f.Begin? then Start(ts[f.name]) else Next(ts[f.name], PassOf(w, f.name), f.a);
    PassesCommute(w.passes, e.name, to, f.name, to');
  }

  lemma CallStepsCommute(ts: Targets, w: World, e: Event, f: Event)
    requires Inv(ts, w) && e.Call? && f.Call? && e.name != f.name && Can(ts, w, e) && Can(ts, Do(ts, w, e), f)
    ensures Can(ts, w, f) && Can(ts, Do(ts, w, f), e)
    ensures Do(ts, Do(ts, w, f), e) == Do(ts, Do(ts, w, e), f)
  {
    hide Knows, Asks, Next, WellNamed, NoLeftovers, Enabled, Apply, Answers;
    PossibleBefore(ts, w, e, f);
    OtherCallStillPossible(ts, w, f, e);
    WritesApart(ts, w, e, f);
    CallsCommute(w.store, e.a, f.a);
    var to, to' := Next(ts[e.name], PassOf(w, e.name), e.a), Next(ts[f.name], PassOf(w, f.name), f.a);
    PassesCommute(w.passes, e.name, to, f.name, to');
  }

  lemma WritesApart(ts: Targets, w: World, e: Event, f: Event)
    requires Inv(ts, w) && e.Call? && f.Call? && e.name != f.name && Can(ts, w, e) && Can(ts, w, f)
    ensures Reads(e.a) || Reads(f.a) || e.a.key != f.a.key
  {
    hide Knows, Asks, WellNamed, NoLeftovers, Enabled, Answers;
    if !Reads(e.a) && !Reads(f.a) {
      WriteKeyWithin(w.store, ts[e.name], PassOf(w, e.name), e.a);
      WriteKeyWithin(w.store, ts[f.name], PassOf(w, f.name), f.a);
    }
  }

  // ---- whole runs ----

  /** The steps of one cluster's passes, in order. */
  function Only(run: seq<Event>, n: string): seq<Event> {
    if run == [] then []
    else Only(run[..|run| - 1], n) + if run[|run| - 1].name == n then [run[|run| - 1]] else []
  }

  /** Both runs have the same steps of every cluster. */
  ghost predicate SameSteps(r: seq<Event>, r': seq<Event>) {
    forall n :: Only(r, n) == Only(r', n)
  }

  lemma RanOne(ts: Targets, w: World, run: seq<Event>, e: Event)
    requires Ran(ts, w, run) && Can(ts, End(ts, w, run), e)
    ensures Ran(ts, w, run + [e]) && End(ts, w, run + [e]) == Do(ts, End(ts, w, run), e)
  {
    hide Can, Do;
    assert (run + [e])[..|run|] == run;
  }

  /** A step can be moved to the end past steps of other clusters. */
  lemma {:induction false} MovedToEnd(ts: Targets, w: World, before: seq<Event>, e: Event, after: seq<Event>)
    requires Inv(ts, w) && Ran(ts, w, before + [e] + after) && Only(after, e.name) == []
    ensures Ran(ts, w, before + after + [e])
    ensures End(ts, w, before + after + [e]) == End(ts, w, before + [e] + after)
    decreases |after|
  {
    hide Inv, Can, Do;
    if after == [] {
      assert before + [e] + after == before + after + [e];
    } else {
      var rest, f := after[..|after| - 1], after[|after| - 1];
      var run := before + [e] + after;
      assert run[..|run| - 1] == before + [e] + rest;
      MovedToEnd(ts, w, before, e, rest);
      var mid := before + rest;
      assert (mid + [e])[..|mid|] == mid;
      InvAlways(ts, w, mid);
      var v := End(ts, w, mid);
      StepsCommute(ts, v, e, f);
      RanOne(ts, w, mid, f);
      RanOne(ts, w, mid + [f], e);
      assert mid + [f] + [e] == before + after + [e];
    }
  }

  lemma {:induction false} OnlyOfBoth(r: seq<Event>, r': seq<Event>, n: string)
    ensures Only(r + r', n) == Only(r, n) + Only(r', n)
    decreases |r'|
  {
    if r' == [] {
      assert r + r' == r;
    } else {
      assert (r + r')[..|r + r'| - 1] == r + r'[..|r'| - 1];
      OnlyOfBoth(r, r'[..|r'| - 1], n);
    }
  }

  /** The last step of cluster `n` in the run. */
  lemma {:induction false} LastOf(run: seq<Event>, n: string) returns (i: nat)
    requires Only(run, n) != []
    ensures i < |run| && run[i] == Only(run, n)[|Only(run, n)| - 1] && run[i].name == n
    ensures Only(run[i + 1..], n) == []
    decreases |run|
  {
    if run[|run| - 1].name == n {
      i := |run| - 1;
    } else {
      var before := run[..|run| - 1];
      i := LastOf(before, n);
      assert run[i + 1..][..|run| - i - 2] == before[i + 1..];
    }
  }

  lemma {:induction false} NoStepsAtAll(run: seq<Event>)
    requires forall n :: Only(run, n) == []
    ensures run == []
  {
    assert run != [] ==> Only(run, run[|run| - 1].name) != [];
  }

  /** With the last steps removed, both runs still have the same steps. */
  lemma SameStepsWithout(before: seq<Event>, e: Event, after: seq<Event>, r: seq<Event>)
    requires SameSteps(before + [e] + after, r + [e]) && Only(after, e.name) == []
    ensures SameSteps(before + after, r)
  {
    hide Only;
    forall n
      ensures Only(before + after, n) == Only(r, n)
    {
      OnlyOfBoth(before + [e], after, n);
      OnlyOfBoth(before, [e], n);
      OnlyOfBoth(before, after, n);
      OnlyOfBoth(r, [e], n);
      OnlyOne(e, n);
      assert Only(before + [e] + after, n) == Only(r + [e], n);
      assert Only(before + [e] + after, n) == Only(before, n) + Only([e], n) + Only(after, n);
      if e.name == n {
        assert Only(before, n) + [e] + [] == Only(before, n) + [e];
        assert Only(before, n) + [] == Only(before, n);
        assert (Only(before, n) + [e])[..|Only(before, n)|] == (Only(r, n) + [e])[..|Only(r, n)|];
      } else {
        assert Only(before, n) + [] + Only(after, n) == Only(before, n) + Only(after, n);
        assert Only(r, n) + [] == Only(r, n);
      }
    }
  }

  lemma OnlyOne(e: Event, n: string)
    ensures Only([e], n) == if e.name == n then [e] else []
  {
    assert [e][..0] == [];
  }

  /** Any interleaving of the same passes, whatever failed in them, is possible if one is, and ends in the same
      world: reconciles of different clusters commute. */
  lemma {:induction false} InterleavingsAgree(ts: Targets, w: World, r: seq<Event>, r': seq<Event>)
    requires Inv(ts, w) && Ran(ts, w, r) && SameSteps(r, r')
    ensures Ran(ts, w, r') && End(ts, w, r') == End(ts, w, r)
    decreases |r'|
  {
    hide Inv, Can, Do;
    if r' == [] {
      NoStepsAtAll(r);
    } else {
      var rest, e := r'[..|r'| - 1], r'[|r'| - 1];
      assert Only(r, e.name) == Only(r', e.name);
      var i := LastOf(r, e.name);
      var before, after := r[..i], r[i + 1..];
      assert r == before + [e] + after && r' == rest + [e];
      MovedToEnd(ts, w, before, e, after);
      SameStepsWithout(before, e, after, rest);
      assert (before + after + [e])[..|before + after|] == before + after;
      InterleavingsAgree(ts, w, before + after, rest);
      RanOne(ts, w, rest, e);
    }
  }
}
