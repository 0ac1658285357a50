/**
 * What `processSchematic`, `executeExternalSchematicRules` and
 * `createExternalSchematicCall` (build/index.ts) decide for one schematic
 * node: how its key is read, which settings are looked up for it, which
 * collection and schematic it runs, and the options of every task it
 * submits. The walker in the Build module submits exactly these tasks.
 */
module Schematic {
  import opened Common
  import opened Resolver
  import opened Structure

  /** The index of the first colon of `s` at or after `i`, or `|s|` when there is none. */
  function ColonFrom(s: string, i: nat): (k: nat)
    requires i <= |s|
    ensures i <= k <= |s| && (k == |s| || s[k] == ':')
    ensures forall j :: i <= j < k ==> s[j] != ':'
    decreases |s| - i
  {
    if i == |s| || s[i] == ':' then i else ColonFrom(s, i + 1)
  }

  /** `[collectionName, schematic]` as destructured from `name.split(':', 2)`. */
  datatype NameParts = NameParts(collection: string, schematic: Option<string>)

  /**
   * `name.split(':', 2)`: the text before the first colon and, when there is
   * a colon, the text between it and the next colon (or the end).
   */
  function SplitName(name: string): (r: NameParts)
    ensures r.collection <= name && ':' !in r.collection
    ensures r.schematic.None? <==> ':' !in name
    ensures r.schematic.None? ==> r.collection == name
    ensures r.schematic.Some? ==> |r.collection| < |name| && name[|r.collection|] == ':'
  {
    var c := ColonFrom(name, 0);
    if c == |name| then NameParts(name, None)
    else NameParts(name[..c], Some(Between(name, c + 1, ColonFrom(name, c + 1))))
  }

  /** The text of `s` from index `i` up to, not including, index `j`. */
  function Between(s: string, i: nat, j: nat): (r: string)
    requires i <= j <= |s|
    ensures |r| == j - i && forall k :: 0 <= k < j - i ==> r[k] == s[i + k]
  {
    seq(j - i, k requires 0 <= k < j - i => s[i + k])
  }

  /** In `s` from `i` on, the first colon is at `k`. */
  lemma {:induction false} ColonFromStops(s: string, i: nat, k: nat)
    requires i <= k <= |s| && (k == |s| || s[k] == ':')
    requires forall j :: i <= j < k ==> s[j] != ':'
    ensures ColonFrom(s, i) == k
    decreases k - i
  {
    if i < k {
      ColonFromStops(s, i + 1, k);
    }
  }

  /** Splitting undoes joining a collection and a schematic name with a colon. */
  lemma SplitJoin(collection: string, schematic: string)
    requires ':' !in collection && ':' !in schematic
    ensures SplitName(collection + ":" + schematic) == NameParts(collection, Some(schematic))
  {
    var name := collection + ":" + schematic;
    var c := |collection|;
    assert forall j :: 0 <= j < c ==> name[j] == collection[j];
    ColonFromStops(name, 0, c);
    assert forall j :: c + 1 <= j < |name| ==> name[j] == schematic[j - c - 1];
    ColonFromStops(name, c + 1, |name|);
    assert name[..c] == collection && Between(name, c + 1, |name|) == schematic;
  }

  /** A name without a colon is split into itself and no schematic. */
  lemma SplitAlias(name: string)
    requires ':' !in name
    ensures SplitName(name) == NameParts(name, None)
  {
  }

  /** The settings layers a node is resolved against: `globalSettings` and `projectSettings`. */
  datatype Layers = Layers(global: Option<Layer>, project: Option<Layer>)

  /** The first lookup, in the `global` layer: by alias for a bare name, by collection and name otherwise. */
  function GlobalSelector(name: string, parts: NameParts): Selector
  {
    if Present(parts.schematic) then Selector(None, parts.schematic, Some(parts.collection))
    else Selector(Some(name), parts.schematic, None)
  }

  /**
   * The second lookup, in the project's layer. The collection is given when
   * `globalSettings?.collection ?? schematic` is truthy, which is how the
   * expression `globalSettings?.collection ?? schematic ? collectionName : undefined`
   * groups; the name is the global hit's schematic name, else the split one.
   */
  function ProjectSelector(name: string, parts: NameParts, global: Option<Resolved>): Selector
  {
    var withCollection := if global.Some? then global.value.collection != "" else Present(parts.schematic);
    Selector(
      if Present(parts.schematic) then None else Some(name),
      if global.Some? then Some(global.value.schematicName) else parts.schematic,
      if withCollection then Some(parts.collection) else None)
  }

  /** The retry in the `global` layer by what the project layer found. */
  function FallbackSelector(project: Resolved): Selector
  {
    Selector(None, Some(project.schematicName), Some(project.collection))
  }

  /** The settings found for a node, and the cache after the lookups. */
  datatype Found = Found(global: Option<Resolved>, project: Option<Resolved>, cache: Cache)

  /** The lookups of `processSchematic`, in order, threading the memo cache. */
  function FindNodeSettings(cache: Cache, name: string, parts: NameParts, layers: Layers, projectName: Option<string>): Found
  {
    var g := Lookup(cache, GlobalSelector(name, parts), Some("global"), layers.global);
    var p := Lookup(g.cache, ProjectSelector(name, parts, g.result), projectName, layers.project);
    if p.result.Some? && g.result.None? then
      var g2 := Lookup(p.cache, FallbackSelector(p.result.value), Some("global"), layers.global);
      Found(g2.result, p.result, g2.cache)
    else
      Found(g.result, p.result, p.cache)
  }

  /**
   * The grouping quirk of the project lookup: for a bare alias whose global
   * hit has a collection, the project layer is searched by the alias itself
   * as collection name together with the global hit's schematic name.
   */
  lemma ProjectSelectorQuirk(name: string, global: Resolved)
    requires ':' !in name && global.collection != ""
    ensures ProjectSelector(name, SplitName(name), Some(global))
         == Selector(Some(name), Some(global.schematicName), Some(name))
  {
    SplitAlias(name);
  }

  /** The collection the node runs: the explicit one, else the global hit's, else the project hit's. */
  function TargetCollection(parts: NameParts, found: Found): Option<string>
  {
    if parts.collection != "" && Present(parts.schematic) then Some(parts.collection)
    else if found.global.Some? then Some(found.global.value.collection)
    else if found.project.Some? then Some(found.project.value.collection)
    else None
  }

  /** The schematic the node runs: the split one, else the global hit's, else the project hit's, else the name. */
  function TargetSchematic(name: string, parts: NameParts, found: Found): string
  {
    if parts.schematic.Some? then parts.schematic.value
    else if found.global.Some? then found.global.value.schematicName
    else if found.project.Some? then found.project.value.schematicName
    else name
  }

  /** The settings of a resolved hit, or none. */
  function SettingsOr(r: Option<Resolved>): Config
  {
    if r.Some? then r.value.settings else map[]
  }

  /** The node's own settings with `project` set: `{ ...settings, project: projectName }`. */
  function NodeConfig(inv: Invocation, projectName: Option<string>): Config
  {
    (if inv.settings.Some? then inv.settings.value else map[])["project" := ValueOf(projectName)]
  }

  /** The node's `project` is always the project name; every other key is the node's own setting. */
  lemma NodeConfigKeys(inv: Invocation, projectName: Option<string>)
    ensures var c := NodeConfig(inv, projectName);
      && "project" in c && c["project"] == ValueOf(projectName)
      && (inv.settings.Some? ==> forall k :: k in inv.settings.value && k != "project" ==> k in c && c[k] == inv.settings.value[k])
      && (forall k :: k in c ==> k == "project" || (inv.settings.Some? && k in inv.settings.value))
  {
  }

  /** The merged settings of `executeExternalSchematicRules`: node, then project hit, then global hit. */
  function Merge(node: Config, project: Option<Resolved>, global: Option<Resolved>): Config
  {
    node + SettingsOr(project) + SettingsOr(global)
  }

  /** A key set by the global hit wins over the project hit's, which wins over the node's own. */
  lemma MergePrecedence(node: Config, project: Option<Resolved>, global: Option<Resolved>)
    ensures var m := Merge(node, project, global);
      && m.Keys == node.Keys + SettingsOr(project).Keys + SettingsOr(global).Keys
      && (forall k :: k in SettingsOr(global) ==> m[k] == SettingsOr(global)[k])
      && (forall k :: k in SettingsOr(project) && k !in SettingsOr(global) ==> m[k] == SettingsOr(project)[k])
      && (forall k :: k in node && k !in SettingsOr(project) && k !in SettingsOr(global) ==> m[k] == node[k])
  {
  }

  /** The three layers of settings in their order of precedence, on a small example. */
  lemma MergeExample()
    ensures Merge(map["a" := Num(1)],
                  Some(Resolved("c", "s", map["a" := Num(2), "b" := Num(2)])),
                  Some(Resolved("c", "s", map["a" := Num(3)])))
         == map["a" := Num(3), "b" := Num(2)]
  {
  }

  /** The options of `createExternalSchematicCall`: `{ path, project, ...settings, ...(name ? { name } : {}) }`. */
  function CallOptions(path: string, project: Option<string>, settings: Config, instance: Option<string>): Config
  {
    var base := map["path" := Str(path), "project" := ValueOf(project)] + settings;
    if Present(instance) then base["name" := Str(instance.value)] else base
  }

  /**
   * In a task's options a non-empty instance name wins, then the settings,
   * then `path` and `project`; nothing else is set.
   */
  lemma CallOptionsPrecedence(path: string, project: Option<string>, settings: Config, instance: Option<string>)
    ensures var o := CallOptions(path, project, settings, instance);
      && "path" in o && "project" in o && settings.Keys <= o.Keys
      && (Present(instance) ==> "name" in o && o["name"] == Str(instance.value))
      && (forall k :: k in settings && !(k == "name" && Present(instance)) ==> o[k] == settings[k])
      && ("path" !in settings ==> o["path"] == Str(path))
      && ("project" !in settings ==> o["project"] == ValueOf(project))
      && (forall k :: k in o ==> k in {"path", "project"} || k in settings || (k == "name" && Present(instance)))
  {
  }

  /** A `RunSchematicTask(collection, schematic, options)` the node submits. */
  datatype Call = Call(collection: string, schematic: string, options: Config)

  /**
   * One call per instance, in key order: the instance's settings over the
   * merged ones, and the instance's key as the name.
   */
  function InstanceCalls(collection: string, schematic: string, path: string, merged: Config,
                         instances: seq<(string, Config)>, projectName: Option<string>): (r: seq<Call>)
    ensures |r| == |instances|
  {
    seq(|instances|, i requires 0 <= i < |instances| =>
      Call(collection, schematic, CallOptions(path, projectName, merged + instances[i].1, Some(instances[i].0))))
  }

  /**
   * `executeExternalSchematicRules`: a missing collection is reported before a
   * missing schematic name; a node without `instances` makes one call with no
   * instance name and no project, a node with them one call per instance.
   */
  function ExternalCalls(found: Found, collection: Option<string>, schematic: string, instances: Option<seq<(string, Config)>>,
                         node: Config, path: string, projectName: Option<string>): (r: Result<seq<Call>>)
    ensures !Present(collection) ==> r == Err(MissingCollection)
    ensures Present(collection) && schematic == "" ==> r == Err(MissingSchematicName)
    ensures Present(collection) && schematic != "" ==> r.Ok?
    ensures r.Ok? ==> |r.value| == (if instances.None? then 1 else |instances.value|)
  {
    var merged := Merge(node, found.project, found.global);
    if !Present(collection) then Err(MissingCollection)
    else if schematic == "" then Err(MissingSchematicName)
    else if instances.None? then Ok([Call(collection.value, schematic, CallOptions(path, None, merged, None))])
    else Ok(InstanceCalls(collection.value, schematic, path, merged, instances.value, projectName))
  }

  /** Every call runs the validated collection and schematic. */
  lemma ExternalCallsTarget(found: Found, collection: Option<string>, schematic: string, instances: Option<seq<(string, Config)>>,
                            node: Config, path: string, projectName: Option<string>)
    ensures var r := ExternalCalls(found, collection, schematic, instances, node, path, projectName);
      r.Ok? ==> forall i :: 0 <= i < |r.value| ==> r.value[i].collection == collection.value && r.value[i].schematic == schematic
  {
  }

  /** What a schematic node submits (or the error it raises), and the cache after its lookups. */
  datatype Plan = Plan(calls: Result<seq<Call>>, cache: Cache)

  /**
   * `processSchematic` for the node `key` with invocation `inv`, under the
   * folder `path`; `parse` is `parseName`, giving the name and the path.
   */
  function SchematicPlan(cache: Cache, parse: (string, string) -> (string, string), key: string, inv: Invocation,
                         layers: Layers, path: string, projectName: Option<string>): Plan
  {
    var (name, parsedPath) := parse(path, key);
    var parts := SplitName(name);
    var found := FindNodeSettings(cache, name, parts, layers, projectName);
    if !Present(parts.schematic) && found.global.None? && found.project.None? then
      Plan(Err(AliasNotFound(key)), found.cache)
    else
      Plan(ExternalCalls(found, TargetCollection(parts, found), TargetSchematic(name, parts, found),
                         inv.instances, NodeConfig(inv, projectName), parsedPath, projectName),
           found.cache)
  }

  /**
   * A node fails with "alias not found" exactly when its name gives no
   * schematic and neither layer has settings for it.
   */
  lemma AliasNotFoundExactly(cache: Cache, parse: (string, string) -> (string, string), key: string, inv: Invocation,
                             layers: Layers, path: string, projectName: Option<string>)
    ensures var name := parse(path, key).0;
      var parts := SplitName(name);
      var found := FindNodeSettings(cache, name, parts, layers, projectName);
      SchematicPlan(cache, parse, key, inv, layers, path, projectName).calls == Err(AliasNotFound(key))
      <==> !Present(parts.schematic) && found.global.None? && found.project.None?
  {
  }

  /**
   * A node named `collection:schematic` runs exactly that schematic of that
   * collection, whatever the settings layers hold.
   */
  lemma ExplicitNameWins(cache: Cache, parse: (string, string) -> (string, string), key: string, inv: Invocation,
                         layers: Layers, path: string, projectName: Option<string>, collection: string, schematic: string)
    requires parse(path, key).0 == collection + ":" + schematic
    requires ':' !in collection && ':' !in schematic && collection != "" && schematic != ""
    ensures var p := SchematicPlan(cache, parse, key, inv, layers, path, projectName);
      && p.calls.Ok?
      && forall i :: 0 <= i < |p.calls.value| ==> p.calls.value[i].collection == collection && p.calls.value[i].schematic == schematic
  {
    SplitJoin(collection, schematic);
    var name := parse(path, key).0;
    var found := FindNodeSettings(cache, name, SplitName(name), layers, projectName);
    ExternalCallsTarget(found, Some(collection), schematic, inv.instances, NodeConfig(inv, projectName), parse(path, key).1, projectName);
  }

  /**
   * A bare alias found in the global layer runs the global hit's collection
   * and schematic; either missing is reported as such.
   */
  lemma GlobalAliasWins(cache: Cache, parse: (string, string) -> (string, string), key: string, inv: Invocation,
                        layers: Layers, path: string, projectName: Option<string>)
    requires ':' !in parse(path, key).0
    requires FindNodeSettings(cache, parse(path, key).0, SplitName(parse(path, key).0), layers, projectName).global.Some?
    ensures var name := parse(path, key).0;
      var g := FindNodeSettings(cache, name, SplitName(name), layers, projectName).global.value;
      var p := SchematicPlan(cache, parse, key, inv, layers, path, projectName);
      && (g.collection == "" ==> p.calls == Err(MissingCollection))
      && (g.collection != "" && g.schematicName == "" ==> p.calls == Err(MissingSchematicName))
      && (p.calls.Ok? ==> forall i :: 0 <= i < |p.calls.value| ==>
            p.calls.value[i].collection == g.collection && p.calls.value[i].schematic == g.schematicName)
  {
    var name := parse(path, key).0;
    SplitAlias(name);
    var parts := SplitName(name);
    var found := FindNodeSettings(cache, name, parts, layers, projectName);
    ExternalCallsTarget(found, TargetCollection(parts, found), TargetSchematic(name, parts, found), inv.instances,
                        NodeConfig(inv, projectName), parse(path, key).1, projectName);
  }

  /** Without instances, every setting of the global hit reaches the task's options unchanged. */
  lemma GlobalSettingsReachTask(found: Found, collection: Option<string>, schematic: string, node: Config, path: string,
                                projectName: Option<string>)
    requires Present(collection) && schematic != "" && found.global.Some?
    ensures var r := ExternalCalls(found, collection, schematic, None, node, path, projectName);
      forall k :: k in found.global.value.settings ==> r.value[0].options[k] == found.global.value.settings[k]
  {
    var merged := Merge(node, found.project, found.global);
    MergePrecedence(node, found.project, found.global);
    CallOptionsPrecedence(path, None, merged, None);
  }

  /** A node that raises no error submits as many tasks as `TaskCount` says. */
  lemma PlanCountsTasks(cache: Cache, parse: (string, string) -> (string, string), key: string, inv: Invocation,
                        layers: Layers, path: string, projectName: Option<string>)
    ensures var p := SchematicPlan(cache, parse, key, inv, layers, path, projectName);
      p.calls.Ok? ==> |p.calls.value| == TaskCount(Schematic(inv))
  {
  }

  /**
   * In an instance's task, the instance name wins, then the instance's own
   * settings, then the merged settings.
   */
  lemma InstanceOverrides(found: Found, collection: Option<string>, schematic: string, instances: seq<(string, Config)>,
                          node: Config, path: string, projectName: Option<string>, i: nat)
    requires Present(collection) && schematic != "" && i < |instances|
    ensures var r := ExternalCalls(found, collection, schematic, Some(instances), node, path, projectName);
      var o := r.value[i].options;
      var (instName, own) := instances[i];
      && (instName != "" ==> "name" in o && o["name"] == Str(instName))
      && (forall k :: k in own && !(k == "name" && instName != "") ==> k in o && o[k] == own[k])
      && (forall k :: k in Merge(node, found.project, found.global) && k !in own && !(k == "name" && instName != "")
            ==> k in o && o[k] == Merge(node, found.project, found.global)[k])
  {
    var merged := Merge(node, found.project, found.global);
    CallOptionsPrecedence(path, projectName, merged + instances[i].1, Some(instances[i].0));
  }
}
