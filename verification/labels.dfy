/** Syncing labels from a vCluster service to its management cluster (`syncLabels` in pkg/services). */
module LabelSync {
  import opened Text
  import opened Constants
  import opened Config
  import Api

  type Labels = Api.Labels

  const PROTECTED_PREFIXES := ["loft.sh/", "vcluster.loft.sh/", "app.kubernetes.io/"]
  const PROTECTED_KEYS := ["helm", "app", "heritage", "release"]

  /** Never synced, whatever the configuration says. */
  predicate BuiltInProtected(k: string) {
    k in PROTECTED_KEYS || SomePrefix(PROTECTED_PREFIXES, k)
  }

  predicate Included(c: Config, k: string) {
    k in c.includeKeys || SomePrefix(c.includePrefixes, k)
  }

  predicate Excluded(c: Config, k: string) {
    k in c.excludeKeys || SomePrefix(c.excludePrefixes, k)
  }

  /** The keys whose label is taken over from the service. */
  predicate Synced(c: Config, k: string) {
    Included(c, k) && !Excluded(c, k) && !BuiltInProtected(k)
  }

  /** What the sync leaves on the management cluster: a synced key has the service's value, or is absent
      where that value is empty or missing; every other key is as before. */
  function SyncResult(c: Config, from: Labels, to: Labels): Labels {
    map k | k in from.Keys + to.Keys && (if Synced(c, k) then Lookup(from, k) != "" else k in to)
      :: if Synced(c, k) then from[k] else to[k]
  }

  /** The label map of one object, edited in place. */
  class LabelMap {
    var entries: Labels

    constructor (entries: Labels)
      ensures this.entries == entries
    {
      this.entries := entries;
    }
  }

  /** The keys to consider: the included keys, and among the keys in use those with an included prefix. */
  method KeysToSync(c: Config, used: set<string>) returns (keys: set<string>)
    ensures forall k :: k in keys <==> k in c.includeKeys || (k in used && SomePrefix(c.includePrefixes, k))
  {
    keys := {};
    for i := 0 to |c.includeKeys|
      invariant forall k :: k in keys <==> k in c.includeKeys[..i]
    {
      keys := keys + {c.includeKeys[i]};
    }
    var rest := used;
    while rest != {}
      invariant rest <= used
      invariant forall k :: k in keys <==> k in c.includeKeys || (k in used - rest && SomePrefix(c.includePrefixes, k))
      decreases |rest|
    {
      var k :| k in rest;
      rest := rest - {k};
      if SomePrefix(c.includePrefixes, k) {
        keys := keys + {k};
      }
    }
  }

  method Without(keys: set<string>, excluded: seq<string>) returns (kept: set<string>)
    ensures forall k :: k in kept <==> k in keys && k !in excluded
  {
    kept := keys;
    for i := 0 to |excluded|
      invariant forall k :: k in kept <==> k in keys && k !in excluded[..i]
    {
      kept := kept - {excluded[i]};
    }
  }

  lemma SomePrefixOfEither(a: seq<string>, b: seq<string>, k: string)
    ensures SomePrefix(a + b, k) <==> SomePrefix(a, k) || SomePrefix(b, k)
  {
    if SomePrefix(a, k) {
      var i :| 0 <= i < |a| && HasPrefix(k, a[i]);
      assert (a + b)[i] == a[i];
    }
    if SomePrefix(b, k) {
      var i :| 0 <= i < |b| && HasPrefix(k, b[i]);
      assert (a + b)[|a| + i] == b[i];
    }
  }

  /** The state of the copying loop: the labels under `done` have been settled. */
  ghost predicate Partly(from: Labels, before: Labels, now: Labels, done: set<string>) {
    && (forall k | k in done :: (k in now <==> Lookup(from, k) != "") && (k in now ==> now[k] == Lookup(from, k)))
    && (forall k | k !in done :: Api.SameAt(now, before, k))
  }

  lemma PartlyIsResult(c: Config, from: Labels, before: Labels, now: Labels, done: set<string>)
    requires Partly(from, before, now, done)
    requires forall k | k in from.Keys + before.Keys :: Synced(c, k) ==> k in done
    requires forall k | k in done :: Synced(c, k)
    ensures now == SyncResult(c, from, before)
  {
    var result := SyncResult(c, from, before);
    forall k
      ensures Api.SameAt(now, result, k)
    {
      if k !in done {
        assert Api.SameAt(now, before, k);
      }
    }
    assert now.Keys == result.Keys;
  }

  method SyncLabels(c: Config, from: Labels, to: LabelMap)
    modifies to
    ensures to.entries == SyncResult(c, from, old(to.entries))
  {
    var candidates := KeysToSync(c, from.Keys + to.entries.Keys);
    var keysToSync := Without(candidates, PROTECTED_KEYS + c.excludeKeys);
    var prefixes := PROTECTED_PREFIXES + c.excludePrefixes;
    ghost var before := to.entries;
    CopyLabels(keysToSync, prefixes, from, to);
    ghost var done := set k | k in keysToSync && !SomePrefix(prefixes, k);
    forall k
      ensures SomePrefix(prefixes, k) <==> SomePrefix(PROTECTED_PREFIXES, k) || SomePrefix(c.excludePrefixes, k)
    {
      SomePrefixOfEither(PROTECTED_PREFIXES, c.excludePrefixes, k);
    }
    PartlyIsResult(c, from, before, to.entries, done);
  }

  lemma SettleOne(from: Labels, before: Labels, now: Labels, done: set<string>, k: string)
    requires Partly(from, before, now, done)
    ensures Partly(from, before, if Lookup(from, k) == "" then now - {k} else now[k := from[k]], done + {k})
  {
    var after := if Lookup(from, k) == "" then now - {k} else now[k := from[k]];
    forall j | j != k
      ensures Api.SameAt(after, now, j)
    {
    }
  }

  /** The copying loop, in whatever order the map of keys is walked. */
  method CopyLabels(keysToSync: set<string>, prefixes: seq<string>, from: Labels, to: LabelMap)
    modifies to
    ensures Partly(from, old(to.entries), to.entries, set k | k in keysToSync && !SomePrefix(prefixes, k))
  {
    ghost var kept := set k | k in keysToSync && !SomePrefix(prefixes, k);
    ghost var before := to.entries;
    var rest := keysToSync;
    assert kept - rest == {};
    while rest != {}
      invariant rest <= keysToSync
      invariant Partly(from, before, to.entries, kept - rest)
      decreases |rest|
    {
      var k :| k in rest;
      ghost var done := kept - rest;
      rest := rest - {k};
      if SomePrefix(prefixes, k) {
        assert kept - rest == done;
        continue;
      }
      assert kept - rest == done + {k};
      SettleOne(from, before, to.entries, done, k);
      if Lookup(from, k) == "" {
        to.entries := to.entries - {k};
        continue;
      }
      to.entries := to.entries[k := from[k]];
    }
    assert kept - rest == kept;
  }

  // ---- what the sync promises ----

  /** The pointwise meaning, for every configuration the environment can hold: labels matched by an include
      pattern, by no exclude pattern and not protected follow the service; nothing else changes. */
  lemma SyncPointwise(env: Env, c: Config, from: Labels, to: Labels, k: string)
    requires Represents(c.includeKeys, c.includePrefixes, Split(env.includeList, ','))
    requires Represents(c.excludeKeys, c.excludePrefixes, Split(env.excludeList, ','))
    ensures
      var follows := SomePatternMatches(Split(env.includeList, ','), k)
                     && !SomePatternMatches(Split(env.excludeList, ','), k) && !BuiltInProtected(k);
      var after := SyncResult(c, from, to);
      && (follows && Lookup(from, k) != "" ==> k in after && after[k] == from[k])
      && (follows && Lookup(from, k) == "" ==> k !in after)
      && (!follows ==> (k in after <==> k in to) && (k in to ==> after[k] == to[k]))
  {
  }

  lemma SyncIdempotent(c: Config, from: Labels, to: Labels)
    ensures SyncResult(c, from, SyncResult(c, from, to)) == SyncResult(c, from, to)
  {
    var once := SyncResult(c, from, to);
    var twice := SyncResult(c, from, once);
    assert forall k :: k in twice <==> k in once;
  }

  /** An unconfigured operator changes no label that has a nonempty key. */
  lemma EmptyConfigChangesNothing(c: Config, from: Labels, to: Labels)
    requires c.includeKeys == [""] && c.includePrefixes == []
    requires "" !in from && "" !in to
    ensures SyncResult(c, from, to) == to
  {
    assert forall k | k in from.Keys + to.Keys :: !Synced(c, k);
  }

  /** What is protected: the operator's own labels and those of Helm, but for `helm.sh/chart`. */
  lemma ProtectedExactly(k: string)
    ensures BuiltInProtected(k) <==>
      k in {"helm", "app", "heritage", "release"}
      || HasPrefix(k, "loft.sh/") || HasPrefix(k, "vcluster.loft.sh/") || HasPrefix(k, "app.kubernetes.io/")
  {
    assert PROTECTED_PREFIXES[0] == "loft.sh/" && PROTECTED_PREFIXES[1] == "vcluster.loft.sh/";
    assert PROTECTED_PREFIXES[2] == "app.kubernetes.io/" && |PROTECTED_PREFIXES| == 3;
    assert PROTECTED_KEYS == ["helm", "app", "heritage", "release"];
  }

  lemma LookupsAreProtected(k: string)
    requires IsLookup(k) || k == LABEL_TARGET_APP
    ensures BuiltInProtected(k)
  {
    assert PROTECTED_PREFIXES[0] == "loft.sh/";
    assert HasPrefix(k, PROTECTED_PREFIXES[0]);
  }

  /** The labels the operator looks clusters up by survive every configuration. */
  lemma SyncKeepsLookups(c: Config, from: Labels, to: Labels, k: string)
    requires IsLookup(k) || k == LABEL_TARGET_APP
    ensures Api.SameAt(to, SyncResult(c, from, to), k)
  {
    LookupsAreProtected(k);
  }

  /** README.md says the Helm label `helm.sh/chart` is always excluded; the code does not exclude it. */
  lemma ChartLabelIsNotProtected()
    ensures !BuiltInProtected("helm.sh/chart")
  {
    var k := "helm.sh/chart";
    assert |k| == 13 && |PROTECTED_PREFIXES| == 3;
    assert k[0] != "loft.sh/"[0] && k[0] != "vcluster.loft.sh/"[0] && k[0] != "app.kubernetes.io/"[0];
    assert forall i | 0 <= i < 3 :: !HasPrefix(k, PROTECTED_PREFIXES[i]);
  }
}
