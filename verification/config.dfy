/** Reading the operator's configuration from its environment (pkg/config/config.go) and printing the
    workspace mappings the way chart/templates/manager.yaml does. */
module Config {
  import opened Text

  datatype Env = Env(defaultWorkspace: string, mappings: string, autoCreate: string, includeList: string,
      excludeList: string)

  datatype Config = Config(
    fleetDefaultWorkspace: string,
    fleetMappings: map<string, string>,
    fleetAutoCreate: bool,
    includeKeys: seq<string>,
    excludeKeys: seq<string>,
    includePrefixes: seq<string>,
    excludePrefixes: seq<string>)

  /** A label pattern of the configuration: `prefix*` or an exact key. */
  predicate PatternMatches(pattern: string, key: string) {
    if HasSuffix(pattern, "*") then HasPrefix(key, pattern[..|pattern| - 1]) else key == pattern
  }

  /** A pattern with a star at its end matches what begins with the rest; any other matches itself alone. */
  lemma PatternsMean(pattern: string, key: string)
    ensures PatternMatches(pattern + "*", key) <==> |pattern| <= |key| && key[..|pattern|] == pattern
    ensures (pattern == "" || pattern[|pattern| - 1] != '*') ==> (PatternMatches(pattern, key) <==> key == pattern)
  {
    assert (pattern + "*")[|pattern|..] == "*";
    assert (pattern + "*")[..|pattern|] == pattern;
    if pattern != "" && HasSuffix(pattern, "*") {
      assert pattern[|pattern| - 1..][0] == '*';
    }
  }

  predicate SomePatternMatches(patterns: seq<string>, key: string) {
    exists i | 0 <= i < |patterns| :: PatternMatches(patterns[i], key)
  }

  predicate SomePrefix(prefixes: seq<string>, key: string) {
    exists i | 0 <= i < |prefixes| :: HasPrefix(key, prefixes[i])
  }

  /** The workspace mapping the entries denote: entries that are not `key:value` are skipped, the last
      entry for a key wins. */
  function MappingsOf(entries: seq<string>): map<string, string> {
    if entries == [] then map[]
    else
      var before := MappingsOf(entries[..|entries| - 1]);
      match ParseHalves(entries[|entries| - 1], ':')
      case Some((k, v)) => before[k := v]
      case None => before
  }

  /** The entry is `key:value`, and no later one is for the same key. */
  ghost predicate IsLastFor(entries: seq<string>, i: nat, key: string, value: string) {
    && i < |entries| && ParseHalves(entries[i], ':') == Some((key, value))
    && forall j, v | i < j < |entries| :: ParseHalves(entries[j], ':') != Some((key, v))
  }

  lemma LastWithOneMore(before: seq<string>, entry: string, i: nat, key: string, value: string)
    ensures IsLastFor(before + [entry], i, key, value) <==>
      (i == |before| && ParseHalves(entry, ':') == Some((key, value)))
      || (IsLastFor(before, i, key, value) && forall v :: ParseHalves(entry, ':') != Some((key, v)))
  {
    var all := before + [entry];
    assert all[|before|] == entry;
    assert forall j | 0 <= j < |before| :: all[j] == before[j];
    hide ParseHalves;
  }

  /** A key is mapped to a value exactly if the last entry for it says so; what is no such entry does not matter. */
  lemma {:induction false} MappingsExact(entries: seq<string>, key: string, value: string)
    ensures (key in MappingsOf(entries) && MappingsOf(entries)[key] == value)
       <==> exists i: nat :: IsLastFor(entries, i, key, value)
  {
    if entries != [] {
      var before, last := entries[..|entries| - 1], entries[|entries| - 1];
      MappingsExact(before, key, value);
      assert entries == before + [last];
      forall i: nat
        ensures IsLastFor(entries, i, key, value) <==>
          (i == |before| && ParseHalves(last, ':') == Some((key, value)))
          || (IsLastFor(before, i, key, value) && forall v :: ParseHalves(last, ':') != Some((key, v)))
      {
        LastWithOneMore(before, last, i, key, value);
      }
      hide ParseHalves, IsLastFor;
      var now := MappingsOf(before);
      match ParseHalves(last, ':')
      case Some((k, v)) =>
        assert MappingsOf(entries) == now[k := v];
        if k == key {
          assert v == value ==> IsLastFor(entries, |before|, key, value);
        }
      case None =>
    }
  }

  /** The two lists hold exactly what the patterns say. */
  ghost predicate Represents(keys: seq<string>, prefixes: seq<string>, patterns: seq<string>) {
    forall k :: (k in keys || SomePrefix(prefixes, k)) <==> SomePatternMatches(patterns, k)
  }

  method LoadMappings(value: string) returns (mappings: map<string, string>)
    ensures mappings == MappingsOf(Split(value, ','))
  {
    mappings := map[];
    var entries := Split(value, ',');
    for i := 0 to |entries|
      invariant mappings == MappingsOf(entries[..i])
    {
      assert entries[..i + 1][..i] == entries[..i];
      var parts := Split(entries[i], ':');
      if |parts| != 2 {
        continue;
      }
      mappings := mappings[parts[0] := parts[1]];
    }
    assert entries[..|entries|] == entries;
  }

  lemma RepresentsOneMore(keys: seq<string>, prefixes: seq<string>, patterns: seq<string>, pattern: string)
    requires Represents(keys, prefixes, patterns)
    ensures HasSuffix(pattern, "*") ==>
      Represents(keys, prefixes + [pattern[..|pattern| - 1]], patterns + [pattern])
    ensures !HasSuffix(pattern, "*") ==> Represents(keys + [pattern], prefixes, patterns + [pattern])
  {
    var more := patterns + [pattern];
    forall k
      ensures SomePatternMatches(more, k) <==> SomePatternMatches(patterns, k) || PatternMatches(pattern, k)
    {
      if SomePatternMatches(patterns, k) {
        var i :| 0 <= i < |patterns| && PatternMatches(patterns[i], k);
        assert more[i] == patterns[i];
      }
      if PatternMatches(pattern, k) {
        assert more[|patterns|] == pattern;
      }
    }
    if HasSuffix(pattern, "*") {
      var prefix := pattern[..|pattern| - 1];
      var wider := prefixes + [prefix];
      forall k
        ensures SomePrefix(wider, k) <==> SomePrefix(prefixes, k) || HasPrefix(k, prefix)
      {
        if SomePrefix(prefixes, k) {
          var i :| 0 <= i < |prefixes| && HasPrefix(k, prefixes[i]);
          assert wider[i] == prefixes[i];
        }
        if HasPrefix(k, prefix) {
          assert wider[|prefixes|] == prefix;
        }
      }
    }
  }

  method LoadPatterns(value: string) returns (keys: seq<string>, prefixes: seq<string>)
    ensures Represents(keys, prefixes, Split(value, ','))
    ensures value == "" ==> keys == [""] && prefixes == []
  {
    keys, prefixes := [], [];
    var patterns := Split(value, ',');
    for i := 0 to |patterns|
      invariant Represents(keys, prefixes, patterns[..i])
      invariant value == "" ==> keys == seq(i, _ => "") && prefixes == []
    {
      assert patterns[..i + 1] == patterns[..i] + [patterns[i]];
      RepresentsOneMore(keys, prefixes, patterns[..i], patterns[i]);
      if HasSuffix(patterns[i], "*") {
        prefixes := prefixes + [patterns[i][..|patterns[i]| - 1]];
        continue;
      }
      keys := keys + [patterns[i]];
    }
    assert patterns[..|patterns|] == patterns;
  }

  method LoadConfigFromEnv(env: Env) returns (config: Config)
    ensures config.fleetDefaultWorkspace == env.defaultWorkspace
    ensures config.fleetAutoCreate <==> env.autoCreate == "true"
    ensures config.fleetMappings == MappingsOf(Split(env.mappings, ','))
    ensures Represents(config.includeKeys, config.includePrefixes, Split(env.includeList, ','))
    ensures Represents(config.excludeKeys, config.excludePrefixes, Split(env.excludeList, ','))
    ensures env.includeList == "" ==> config.includeKeys == [""] && config.includePrefixes == []
  {
    var mappings := LoadMappings(env.mappings);
    var includeKeys, includePrefixes := LoadPatterns(env.includeList);
    var excludeKeys, excludePrefixes := LoadPatterns(env.excludeList);
    config := Config(env.defaultWorkspace, mappings, env.autoCreate == "true",
                     includeKeys, excludeKeys, includePrefixes, excludePrefixes);
  }

  /** The workspace a new cluster goes to. */
  function GetTargetClusterNamespace(config: Config, projectUID: string): string {
    if projectUID != "" && Lookup(config.fleetMappings, projectUID) != "" then config.fleetMappings[projectUID]
    else config.fleetDefaultWorkspace
  }

  // ---- the printing half of the configuration ----

  datatype Pair = Pair(key: string, value: string)

  function PrintPair(p: Pair): string {
    p.key + ":" + p.value
  }

  function PrintAll(pairs: seq<Pair>): seq<string> {
    seq(|pairs|, i requires 0 <= i < |pairs| => PrintPair(pairs[i]))
  }

  function PairsToMap(pairs: seq<Pair>): map<string, string> {
    if pairs == [] then map[]
    else PairsToMap(pairs[..|pairs| - 1])[pairs[|pairs| - 1].key := pairs[|pairs| - 1].value]
  }

  predicate SeparatorFree(s: string) {
    ',' !in s && ':' !in s
  }

  lemma {:induction false} MappingsOfPrinted(pairs: seq<Pair>)
    requires forall i | 0 <= i < |pairs| :: SeparatorFree(pairs[i].key) && SeparatorFree(pairs[i].value)
    ensures MappingsOf(PrintAll(pairs)) == PairsToMap(pairs)
  {
    if pairs != [] {
      var last := pairs[|pairs| - 1];
      MappingsOfPrinted(pairs[..|pairs| - 1]);
      assert PrintAll(pairs)[..|pairs| - 1] == PrintAll(pairs[..|pairs| - 1]);
      PrintedPairParses(last.key, last.value, ':');
      assert PrintPair(last) == last.key + [':'] + last.value;
    }
  }

  /** What the chart prints for a mapping is read back as that mapping, whatever the order of printing. */
  lemma MappingsRoundTrip(pairs: seq<Pair>)
    requires forall i | 0 <= i < |pairs| :: SeparatorFree(pairs[i].key) && SeparatorFree(pairs[i].value)
    ensures MappingsOf(Split(Join(PrintAll(pairs), ','), ',')) == PairsToMap(pairs)
  {
    var printed := PrintAll(pairs);
    if pairs == [] {
      assert printed == [];
      assert Split("", ',') == [""];
      assert Split("", ':') == [""];
      assert MappingsOf([""]) == MappingsOf([""][..0]) == map[];
    } else {
      forall i | 0 <= i < |printed|
        ensures ',' !in printed[i]
      {
        assert printed[i] == pairs[i].key + ":" + pairs[i].value;
      }
      SplitJoin(printed, ',');
      MappingsOfPrinted(pairs);
    }
  }

  /** Every mapped project gets its own workspace, every other one the default. */
  lemma MappedWorkspace(config: Config, pairs: seq<Pair>, uid: string)
    requires forall i | 0 <= i < |pairs| :: SeparatorFree(pairs[i].key) && SeparatorFree(pairs[i].value)
    requires forall i, j | 0 <= i < j < |pairs| :: pairs[i].key != pairs[j].key
    requires config.fleetMappings == MappingsOf(Split(Join(PrintAll(pairs), ','), ','))
    ensures forall i | 0 <= i < |pairs| && pairs[i].key == uid && uid != "" && pairs[i].value != "" ::
              GetTargetClusterNamespace(config, uid) == pairs[i].value
    ensures (forall i | 0 <= i < |pairs| :: pairs[i].key != uid) ==>
              GetTargetClusterNamespace(config, uid) == config.fleetDefaultWorkspace
  {
    MappingsRoundTrip(pairs);
    PairsToMapAt(pairs);
  }

  lemma {:induction false} PairsToMapAt(pairs: seq<Pair>)
    requires forall i, j | 0 <= i < j < |pairs| :: pairs[i].key != pairs[j].key
    ensures forall i | 0 <= i < |pairs| ::
      pairs[i].key in PairsToMap(pairs) && PairsToMap(pairs)[pairs[i].key] == pairs[i].value
    ensures forall k | k in PairsToMap(pairs) :: exists i | 0 <= i < |pairs| :: pairs[i].key == k
  {
    if pairs != [] {
      PairsToMapAt(pairs[..|pairs| - 1]);
      assert pairs == pairs[..|pairs| - 1] + [pairs[|pairs| - 1]];
    }
  }
}
