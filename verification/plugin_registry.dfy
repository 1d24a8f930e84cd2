/** The plugin name registry: providers found in plugin jars are keyed by
    their lower-cased names, looked up case-insensitively, and dropped on
    cleanup. Which providers a jar holds is outside the program's logic,
    so a load takes the providers it discovers as input. */
module PluginRegistry {
  import opened Base

  /** ASCII lower-casing: `A`..`Z` become `a`..`z`, every other character
      is kept. */
  function LowerChar(ch: char): (r: char)
    ensures 'A' <= ch <= 'Z' ==> r as int == ch as int + 32
    ensures !('A' <= ch <= 'Z') ==> r == ch
    ensures !('A' <= r <= 'Z')
  {
    if 'A' <= ch <= 'Z' then (ch as int + 32) as char else ch
  }

  /** `toLowerCase()`, character by character. */
  function Lower(s: string): (r: string)
    ensures |r| == |s|
    ensures forall i :: 0 <= i < |s| ==> r[i] == LowerChar(s[i])
  {
    seq(|s|, i requires 0 <= i < |s| => LowerChar(s[i]))
  }

  /** Lower-casing a lower-cased name changes nothing, so a registered key
      is its own lookup key. */
  lemma LowerIdempotent(s: string)
    ensures Lower(Lower(s)) == Lower(s)
  {
    assert forall i :: 0 <= i < |s| ==> LowerChar(LowerChar(s[i])) == LowerChar(s[i]);
  }

  /** The registry: map providers and rule set providers by key, and how
      many class loaders are open. */
  datatype Registry<M, R> = Registry(maps: map<string, M>, ruleSets: map<string, R>, loaders: nat)

  /** One provider with the name it reports. */
  datatype Found<P> = Found(name: string, provider: P)

  /** `put(name.toLowerCase(), provider)` for each found provider, in the
      order found. */
  function RegisterAll<P>(m: map<string, P>, found: seq<Found<P>>): map<string, P>
    decreases |found|
  {
    if |found| == 0 then m
    else RegisterAll(m[Lower(found[0].name) := found[0].provider], found[1..])
  }

  /** Reference definition of what a key ends up holding: the last found
      provider whose name lower-cases to the key, if there is one. */
  function LastFor<P>(found: seq<Found<P>>, key: string): Option<P>
    decreases |found|
  {
    if |found| == 0 then None
    else if Lower(found[|found| - 1].name) == key then Some(found[|found| - 1].provider)
    else LastFor(found[..|found| - 1], key)
  }

  lemma {:induction false} LastForSnoc<P>(found: seq<Found<P>>, f: Found<P>, key: string)
    ensures LastFor(found + [f], key) == if Lower(f.name) == key then Some(f.provider) else LastFor(found, key)
  {
    assert (found + [f])[..|found + [f]| - 1] == found;
  }

  /** Registration is last-wins per key: a key a found name maps to holds
      the last provider with that key; every other key keeps what it held. */
  lemma {:induction false} RegisterAllLastWins<P>(m: map<string, P>, found: seq<Found<P>>, key: string)
    ensures LastFor(found, key).Some? ==>
      key in RegisterAll(m, found) && RegisterAll(m, found)[key] == LastFor(found, key).value
    ensures LastFor(found, key).None? ==>
      (key in RegisterAll(m, found) <==> key in m) && (key in m ==> RegisterAll(m, found)[key] == m[key])
    decreases |found|
  {
    if |found| > 0 {
      var f := found[0];
      var m1 := m[Lower(f.name) := f.provider];
      RegisterAllLastWins(m1, found[1..], key);
      LastForCons(f, found[1..], key);
      assert [f] + found[1..] == found;
    }
  }

  /** Prepending a provider only matters for its key when no later one
      claims that key. */
  lemma {:induction false} LastForCons<P>(f: Found<P>, rest: seq<Found<P>>, key: string)
    ensures LastFor([f] + rest, key) ==
      if LastFor(rest, key).Some? then LastFor(rest, key)
      else if Lower(f.name) == key then Some(f.provider) else None
    decreases |rest|
  {
    if |rest| == 0 {
      assert [f] + rest == [f];
      assert [f][..0] == [];
    } else {
      var init := rest[..|rest| - 1];
      var last := rest[|rest| - 1];
      assert rest == init + [last];
      assert [f] + rest == ([f] + init) + [last];
      LastForSnoc([f] + init, last, key);
      LastForSnoc(init, last, key);
      LastForCons(f, init, key);
    }
  }

  /** Why a lookup failed: the name asked for and the keys available. */
  datatype LookupError = UnknownMap(name: string, available: set<string>)
                       | UnknownRuleSet(name: string, available: set<string>)

  /** `getMapProvider(name)`: the provider under the lower-cased name, or
      an error naming it and listing what is available. */
  function GetMapProvider<M, R>(reg: Registry<M, R>, name: string): (r: Result<M, LookupError>)
    ensures r.Ok? <==> Lower(name) in reg.maps
    ensures r.Ok? ==> r.value == reg.maps[Lower(name)]
    ensures r.Err? ==> r.error == UnknownMap(name, reg.maps.Keys)
  {
    if Lower(name) in reg.maps then Ok(reg.maps[Lower(name)]) else Err(UnknownMap(name, reg.maps.Keys))
  }

  /** `getRuleSetProvider(name)`, the same for rule sets. */
  function GetRuleSetProvider<M, R>(reg: Registry<M, R>, name: string): (r: Result<R, LookupError>)
    ensures r.Ok? <==> Lower(name) in reg.ruleSets
    ensures r.Ok? ==> r.value == reg.ruleSets[Lower(name)]
    ensures r.Err? ==> r.error == UnknownRuleSet(name, reg.ruleSets.Keys)
  {
    if Lower(name) in reg.ruleSets then Ok(reg.ruleSets[Lower(name)]) else Err(UnknownRuleSet(name, reg.ruleSets.Keys))
  }

  /** `getAvailableMaps()` and `getAvailableRuleSets()`. */
  function AvailableMaps<M, R>(reg: Registry<M, R>): set<string>
  {
    reg.maps.Keys
  }

  function AvailableRuleSets<M, R>(reg: Registry<M, R>): set<string>
  {
    reg.ruleSets.Keys
  }

  /** A found provider is found again under any spelling of its name that
      lower-cases the same, and every available key is found under itself. */
  lemma LookupCaseInsensitive<M, R>(reg: Registry<M, R>, a: string, b: string)
    requires Lower(a) == Lower(b)
    ensures GetMapProvider(reg, a).Ok? == GetMapProvider(reg, b).Ok?
    ensures GetMapProvider(reg, a).Ok? ==> GetMapProvider(reg, a) == GetMapProvider(reg, b)
    ensures GetRuleSetProvider(reg, a).Ok? == GetRuleSetProvider(reg, b).Ok?
    ensures GetRuleSetProvider(reg, a).Ok? ==> GetRuleSetProvider(reg, a) == GetRuleSetProvider(reg, b)
  {
  }

  lemma AvailableFound<M, R>(reg: Registry<M, R>, key: string)
    requires key in AvailableMaps(reg)
    ensures key == Lower(key) ==> GetMapProvider(reg, key) == Ok(reg.maps[key])
  {
  }

  /** `endsWith(".jar")`. */
  predicate IsJarName(path: string)
  {
    |path| >= 4 && path[|path| - 4..] == ".jar"
  }

  /** The jar paths that are kept: existing files with a jar name, in the
      order given. */
  function UsableJars(paths: seq<string>, existing: set<string>): (r: seq<string>)
    ensures forall p :: p in r <==> p in paths && p in existing && IsJarName(p)
    decreases |paths|
  {
    if |paths| == 0 then []
    else (if paths[0] in existing && IsJarName(paths[0]) then [paths[0]] else []) + UsableJars(paths[1..], existing)
  }

  /** `loadPluginsFromJars(jarPaths)`. With no path, or no usable jar,
      nothing changes; otherwise one class loader is opened and the map
      providers, then the rule set providers, it discovers are registered. */
  function LoadPlugins<M, R>(reg: Registry<M, R>, paths: seq<string>, existing: set<string>,
                             maps: seq<Found<M>>, ruleSets: seq<Found<R>>): (r: Registry<M, R>)
    ensures |UsableJars(paths, existing)| == 0 ==> r == reg
    ensures |UsableJars(paths, existing)| > 0 ==> r.loaders == reg.loaders + 1
  {
    if |paths| == 0 then reg
    else if |UsableJars(paths, existing)| == 0 then reg
    else Registry(RegisterAll(reg.maps, maps), RegisterAll(reg.ruleSets, ruleSets), reg.loaders + 1)
  }

  /** After a load with usable jars, a name resolves to the last provider
      discovered under it; names not discovered resolve as before. */
  lemma LoadLookup<M, R>(reg: Registry<M, R>, paths: seq<string>, existing: set<string>,
                         maps: seq<Found<M>>, ruleSets: seq<Found<R>>, name: string)
    requires |UsableJars(paths, existing)| > 0
    ensures var r := LoadPlugins(reg, paths, existing, maps, ruleSets);
      && (LastFor(maps, Lower(name)).Some? ==> GetMapProvider(r, name) == Ok(LastFor(maps, Lower(name)).value))
      && (LastFor(maps, Lower(name)).None? ==> GetMapProvider(r, name).Ok? == GetMapProvider(reg, name).Ok?)
      && (LastFor(ruleSets, Lower(name)).Some? ==> GetRuleSetProvider(r, name) == Ok(LastFor(ruleSets, Lower(name)).value))
      && (LastFor(ruleSets, Lower(name)).None? ==> GetRuleSetProvider(r, name).Ok? == GetRuleSetProvider(reg, name).Ok?)
  {
    RegisterAllLastWins(reg.maps, maps, Lower(name));
    RegisterAllLastWins(reg.ruleSets, ruleSets, Lower(name));
  }

  /** `cleanup()`: every loader closed and both tables emptied. */
  function Cleanup<M, R>(reg: Registry<M, R>): (r: Registry<M, R>)
    ensures r.loaders == 0 && AvailableMaps(r) == {} && AvailableRuleSets(r) == {}
  {
    Registry(map[], map[], 0)
  }

  /** After cleanup every lookup fails and reports nothing available. */
  lemma CleanupForgets<M, R>(reg: Registry<M, R>, name: string)
    ensures GetMapProvider(Cleanup(reg), name) == Err(UnknownMap(name, {}))
    ensures GetRuleSetProvider(Cleanup(reg), name) == Err(UnknownRuleSet(name, {}))
  {
  }
}
