/**
 * The build schematic itself (build/index.ts): the walker that turns the
 * spec tree into tasks, proved against the pure walk of the Structure,
 * Schematic and Emission modules.
 */
module Build {
  import opened Common
  import opened Resolver
  import opened Structure
  import opened Schematic
  import opened Emission
  import opened Dispatch

  /** A `TaskId[]` array that the walker extends in place and hands back. */
  class IdList {
    var items: seq<TaskId>

    constructor (items: seq<TaskId>)
      ensures this.items == items
    {
      this.items := items;
    }
  }

  /**
   * One run of the build schematic: `parse` is `parseName`, `resolver` holds
   * the module-level settings cache, and `disp` is the schematic context's
   * task queue.
   */
  class Builder {
    const parse: (string, string) -> (string, string)
    const resolver: SettingsResolver
    const disp: Dispatcher

    constructor (parse: (string, string) -> (string, string), resolver: SettingsResolver, disp: Dispatcher)
      ensures this.parse == parse && this.resolver == resolver && this.disp == disp
    {
      this.parse := parse;
      this.resolver := resolver;
      this.disp := disp;
    }

    /** `createExternalSchematicCall`: submits one task of `collection:schematic` with its options. */
    method CreateExternalSchematicCall(collection: string, schematic: string, path: string, settings: Config,
                                       deps: seq<TaskId>, name: Option<string>, project: Option<string>)
      returns (id: TaskId)
      requires disp.Valid() && disp.Issued(deps)
      modifies disp
      ensures disp.Valid() && id == old(disp.count) && disp.count == old(disp.count) + 1
      ensures disp.log == old(disp.log) + [Task(Some(collection), schematic, Options(CallOptions(path, project, settings, name)), deps)]
    {
      id := disp.AddTask(Some(collection), schematic, Options(CallOptions(path, project, settings, name)), deps);
    }

    /**
     * `executeExternalSchematicRules`: validates the target, then submits the
     * calls of `ExternalCalls`, each depending on `deps`, and returns their ids.
     */
    method ExecuteExternalSchematicRules(found: Found, collection: Option<string>, schematic: string,
                                         instances: Option<seq<(string, Config)>>, node: Config, path: string,
                                         deps: seq<TaskId>, projectName: Option<string>)
      returns (r: Result<seq<TaskId>>)
      requires disp.Valid() && disp.Issued(deps)
      modifies disp
      ensures disp.Valid() && old(disp.count) <= disp.count
      ensures var e := ExternalCalls(found, collection, schematic, instances, node, path, projectName);
        && (e.Err? ==> r == Err(e.error) && disp.log == old(disp.log) && disp.count == old(disp.count))
        && (e.Ok? ==> && r == Ok(Range(old(disp.count), disp.count))
                      && disp.log == old(disp.log) + Tasks(e.value, Repeat(deps, |e.value|)))
    {
      var settings := Merge(node, found.project, found.global);
      if !Present(collection) {
        return Err(MissingCollection);
      }
      if schematic == "" {
        return Err(MissingSchematicName);
      }
      if instances.None? {
        var id := CreateExternalSchematicCall(collection.value, schematic, path, settings, deps, None, None);
        assert Range(id, id + 1) == [id];
        return Ok([id]);
      }
      r := SubmitInstances(collection.value, schematic, path, settings, instances.value, deps, projectName);
    }

    /** The instance loop of `executeExternalSchematicRules`: one task per instance, in key order. */
    method SubmitInstances(collection: string, schematic: string, path: string, settings: Config,
                           insts: seq<(string, Config)>, deps: seq<TaskId>, projectName: Option<string>)
      returns (r: Result<seq<TaskId>>)
      requires disp.Valid() && disp.Issued(deps)
      modifies disp
      ensures disp.Valid() && disp.count == old(disp.count) + |insts|
      ensures r == Ok(Range(old(disp.count), disp.count))
      ensures disp.log == old(disp.log) + Tasks(InstanceCalls(collection, schematic, path, settings, insts, projectName), Repeat(deps, |insts|))
    {
      var ids: seq<TaskId> := [];
      ghost var log0 := disp.log;
      ghost var count0 := disp.count;
      var i := 0;
      while i < |insts|
        invariant 0 <= i <= |insts|
        invariant disp.Valid() && disp.Issued(deps)
        invariant InstancesSubmitted(collection, schematic, path, settings, insts[..i], projectName, deps, count0, log0,
                                     ids, disp.count, disp.log)
      {
        ghost var countA := disp.count;
        ghost var logA := disp.log;
        var id := CreateExternalSchematicCall(collection, schematic, path, settings + insts[i].1, deps, Some(insts[i].0), projectName);
        InstanceStep(collection, schematic, path, settings, insts, projectName, deps, i, count0, log0, ids, countA, logA,
                     disp.count, disp.log);
        ids := ids + [id];
        i := i + 1;
      }
      assert insts[..i] == insts;
      return Ok(ids);
    }

    /**
     * The first instances were submitted from the id `next` on the log `log`:
     * the ids, the next id and the log are those of one call per instance.
     */
    static ghost predicate InstancesSubmitted(collection: string, schematic: string, path: string, merged: Config,
                                              insts: seq<(string, Config)>, projectName: Option<string>, deps: seq<TaskId>,
                                              next: nat, log: seq<Task>, ids: seq<TaskId>, count: nat, logNow: seq<Task>)
    {
      && count == next + |insts| && ids == Range(next, count)
      && logNow == log + Tasks(InstanceCalls(collection, schematic, path, merged, insts, projectName), Repeat(deps, |insts|))
    }

    /** One step of the instance loop: submitting instance `i` extends what the first `i` submitted. */
    static lemma InstanceStep(collection: string, schematic: string, path: string, merged: Config,
                              insts: seq<(string, Config)>, projectName: Option<string>, deps: seq<TaskId>, i: nat,
                              next: nat, log: seq<Task>, ids: seq<TaskId>, count: nat, logNow: seq<Task>,
                              countAfter: nat, logAfter: seq<Task>)
      requires i < |insts|
      requires InstancesSubmitted(collection, schematic, path, merged, insts[..i], projectName, deps, next, log, ids, count, logNow)
      requires countAfter == count + 1
      requires logAfter == logNow + [Task(Some(collection), schematic, Options(CallOptions(path, projectName, merged + insts[i].1, Some(insts[i].0))), deps)]
      ensures InstancesSubmitted(collection, schematic, path, merged, insts[..i + 1], projectName, deps, next, log,
                                 ids + [count], countAfter, logAfter)
    {
      ghost var call := Call(collection, schematic, CallOptions(path, projectName, merged + insts[i].1, Some(insts[i].0)));
      ghost var before := InstanceCalls(collection, schematic, path, merged, insts[..i], projectName);
      assert InstanceCalls(collection, schematic, path, merged, insts[..i + 1], projectName) == before + [call];
      assert Repeat(deps, i + 1) == Repeat(deps, i) + [deps];
      TasksAppend(before, [call], Repeat(deps, i), [deps]);
      assert Tasks([call], [deps]) == [TaskOf(call, deps)];
      assert Range(count, count + 1) == [count];
      RangeAppend(next, count, count + 1);
    }

    /**
     * `processSchematic`: the three lookups, the "alias not found" check, and
     * the calls of the node, all depending on `deps`.
     */
    method ProcessSchematic(key: string, inv: Invocation, layers: Layers, deps: seq<TaskId>, path: string,
                            projectName: Option<string>)
      returns (r: Result<seq<TaskId>>)
      requires disp.Valid() && disp.Issued(deps)
      modifies disp, resolver
      ensures disp.Valid()
      ensures var p := SchematicPlan(old(resolver.cache), parse, key, inv, layers, path, projectName);
        && resolver.cache == p.cache
        && (p.calls.Err? ==> r == Err(p.calls.error) && disp.log == old(disp.log) && disp.count == old(disp.count))
        && (p.calls.Ok? ==> && disp.count == old(disp.count) + |p.calls.value|
                            && r == Ok(Range(old(disp.count), disp.count))
                            && disp.log == old(disp.log) + Tasks(p.calls.value, Repeat(deps, |p.calls.value|)))
    {
      var (name, parsedPath) := parse(path, key);
      var parts := SplitName(name);
      var global := resolver.Resolve(GlobalSelector(name, parts), Some("global"), layers.global);
      var project := resolver.Resolve(ProjectSelector(name, parts, global), projectName, layers.project);
      if project.Some? && global.None? {
        global := resolver.Resolve(FallbackSelector(project.value), Some("global"), layers.global);
      }
      if !Present(parts.schematic) && global.None? && project.None? {
        return Err(AliasNotFound(key));
      }
      var found := Found(global, project, resolver.cache);
      r := ExecuteExternalSchematicRules(found, TargetCollection(parts, found), TargetSchematic(name, parts, found),
                                         inv.instances, NodeConfig(inv, projectName), parsedPath, deps, projectName);
    }

    /**
     * The loop over one level's schematic children (and over the workspace's
     * top-level schematics): each node's tasks depend on `deps`; the ids of
     * all of them are returned, in submission order.
     */
    method ProcessSchematics(gens: seq<(string, Node)>, layers: Layers, deps: seq<TaskId>, path: string,
                             projectName: Option<string>)
      returns (r: Result<seq<TaskId>>)
      requires forall i :: 0 <= i < |gens| ==> gens[i].1.Schematic?
      requires disp.Valid() && disp.Issued(deps)
      modifies disp, resolver
      ensures disp.Valid() && old(disp.count) <= disp.count
      ensures r.Ok? ==> SchematicsRan(gens, old(resolver.cache), parse, layers, path, projectName, deps, old(disp.count),
                                      old(disp.log), resolver.cache, r.value, disp.count, disp.log)
      ensures r.Err? ==> SchematicsFailed(gens, old(resolver.cache), parse, layers, path, projectName, r.error, resolver.cache)
    {
      ghost var cache0 := resolver.cache;
      ghost var log0 := disp.log;
      ghost var count0 := disp.count;
      var ids: seq<TaskId> := [];
      var i := 0;
      while i < |gens|
        invariant 0 <= i <= |gens|
        invariant disp.Valid() && disp.Issued(deps) && count0 <= disp.count
        invariant SchematicsRan(gens[..i], cache0, parse, layers, path, projectName, deps, count0, log0,
                                resolver.cache, ids, disp.count, disp.log)
      {
        ghost var cacheA := resolver.cache;
        ghost var countA := disp.count;
        ghost var logA := disp.log;
        var one := ProcessSchematic(gens[i].0, gens[i].1.invocation, layers, deps, path, projectName);
        if one.Err? {
          SchematicFails(gens, i, cache0, parse, layers, path, projectName, deps, count0, log0, cacheA, ids, countA, logA,
                         one.error, resolver.cache);
          return Err(one.error);
        }
        SchematicStep(gens, i, cache0, parse, layers, path, projectName, deps, count0, log0, cacheA, ids, countA, logA,
                      resolver.cache, disp.count, disp.log);
        ids := ids + one.value;
        i := i + 1;
      }
      assert gens[..i] == gens;
      return Ok(ids);
    }

    /**
     * `processStructure`: submits this level's schematics depending on the
     * list `parent`, then walks each folder child with this level's ids
     * followed by `parent` as it stands, appending what the child returns to
     * `parent`; returns `parent` itself.
     */
    method ProcessStructure(path: string, layers: Layers, node: Node, parent: IdList, projectName: Option<string>)
      returns (r: Result<IdList>)
      requires disp.Valid() && disp.Issued(parent.items)
      modifies parent, disp, resolver
      ensures disp.Valid() && disp.Issued(parent.items) && old(parent.items) <= parent.items
      ensures old(disp.count) <= disp.count
      ensures r.Ok? ==> r.value == parent
                        && LevelWalked(node, path, old(resolver.cache), parse, layers, projectName, old(parent.items),
                                       old(disp.count), old(disp.log), resolver.cache, parent.items, disp.count, disp.log)
      ensures r.Err? ==> LevelFailed(node, path, old(resolver.cache), parse, layers, projectName, r.error, resolver.cache)
      decreases node, 1
    {
      ghost var p0 := parent.items;
      ghost var cache0 := resolver.cache;
      ghost var log0 := disp.log;
      ghost var count0 := disp.count;
      var content := ChildrenOf(node);
      var gens := ExtractStructures(content, SchematicKind);
      var branch := ProcessSchematics(gens, layers, parent.items, path, projectName);
      if branch.Err? {
        LevelFailsInSchematics(node, path, cache0, parse, layers, projectName, branch.error, resolver.cache);
        return Err(branch.error);
      }
      ghost var cacheS := resolver.cache;
      ghost var countS := disp.count;
      ghost var logS := disp.log;
      var folders := ExtractStructures(content, FolderKind);
      FoldersBelow(node);
      var failed := ProcessFolders(path, layers, folders, node, branch.value, parent, projectName);
      if failed.Some? {
        LevelFailsInFolders(node, path, cache0, parse, layers, projectName, p0, count0, log0, cacheS, branch.value, countS, logS,
                            failed.value, resolver.cache);
        return Err(failed.value);
      }
      LevelFromParts(node, path, cache0, parse, layers, projectName, p0, count0, log0, cacheS, branch.value, countS, logS,
                     resolver.cache, parent.items, disp.count, disp.log);
      return Ok(parent);
    }

    /**
     * The folder loop of `processStructure`: each folder child of `owner`,
     * under `path/<key>`, gets a fresh list of `branch` followed by `parent`
     * as it stands, and what it returns is appended to `parent`.
     */
    method ProcessFolders(path: string, layers: Layers, folders: seq<(string, Node)>, ghost owner: Node,
                          branch: seq<TaskId>, parent: IdList, projectName: Option<string>)
      returns (failed: Option<BuildError>)
      requires forall i :: 0 <= i < |folders| ==> folders[i].1 < owner
      requires disp.Valid() && disp.Issued(parent.items) && disp.Issued(branch)
      modifies parent, disp, resolver
      ensures disp.Valid() && disp.Issued(parent.items) && old(parent.items) <= parent.items
      ensures old(disp.count) <= disp.count
      ensures failed.None? ==> FoldersWalked(folders, owner, path, old(resolver.cache), parse, layers, projectName, branch,
                                             old(parent.items), old(disp.count), old(disp.log),
                                             resolver.cache, parent.items, disp.count, disp.log)
      ensures failed.Some? ==> FoldersFailed(folders, owner, path, old(resolver.cache), parse, layers, projectName,
                                             failed.value, resolver.cache)
      decreases owner, 0
    {
      ghost var p0 := parent.items;
      ghost var cache0 := resolver.cache;
      ghost var log0 := disp.log;
      ghost var count0 := disp.count;
      var j := 0;
      while j < |folders|
        invariant 0 <= j <= |folders|
        invariant disp.Valid() && disp.Issued(parent.items) && disp.Issued(branch)
        invariant p0 <= parent.items && count0 <= disp.count
        invariant FoldersWalked(folders[..j], owner, path, cache0, parse, layers, projectName, branch, p0, count0, log0,
                                resolver.cache, parent.items, disp.count, disp.log)
      {
        ghost var cacheA := resolver.cache;
        ghost var itemsA := parent.items;
        ghost var countA := disp.count;
        ghost var logA := disp.log;
        var child := new IdList(branch + parent.items);
        var res := ProcessStructure(path + "/" + folders[j].0, layers, folders[j].1, child, projectName);
        if res.Err? {
          FolderFails(folders, owner, j, path, cache0, parse, layers, projectName, branch, p0, count0, log0,
                      cacheA, itemsA, countA, logA, res.error, resolver.cache);
          return Some(res.error);
        }
        FolderStep(folders, owner, j, path, cache0, parse, layers, projectName, branch, p0, count0, log0,
                   cacheA, itemsA, countA, logA, resolver.cache, child.items, disp.count, disp.log);
        parent.items := parent.items + res.value.items;
        j := j + 1;
      }
      assert folders[..j] == folders;
      return None;
    }
  }

  /**
   * The schematic nodes `gens` ran without error from the cache `cache`,
   * the id `next` and the log `log`: the cache, the ids returned, the next
   * id and the log are what their emission gives, every task on `deps`.
   */
  ghost predicate SchematicsRan(gens: seq<(string, Node)>, cache: Cache, parse: (string, string) -> (string, string),
                                layers: Layers, path: string, projectName: Option<string>, deps: seq<TaskId>,
                                next: nat, log: seq<Task>, cacheNow: Cache, ids: seq<TaskId>, count: nat, logNow: seq<Task>)
    requires forall i :: 0 <= i < |gens| ==> gens[i].1.Schematic?
  {
    var e := EmitSchematics(gens, cache, parse, layers, path, projectName);
    && e.calls.Ok? && cacheNow == e.cache && count == next + |e.calls.value| && ids == Range(next, count)
    && logNow == log + Tasks(e.calls.value, Repeat(deps, |e.calls.value|))
  }

  /** The schematic nodes `gens` raised `error`, leaving the cache `cacheNow`. */
  ghost predicate SchematicsFailed(gens: seq<(string, Node)>, cache: Cache, parse: (string, string) -> (string, string),
                                   layers: Layers, path: string, projectName: Option<string>, error: BuildError, cacheNow: Cache)
    requires forall i :: 0 <= i < |gens| ==> gens[i].1.Schematic?
  {
    var e := EmitSchematics(gens, cache, parse, layers, path, projectName);
    e.calls == Err(error) && cacheNow == e.cache
  }

  /** One step of the schematic loop: node `i` ran without error after the first `i`. */
  lemma SchematicStep(gens: seq<(string, Node)>, i: nat, cache: Cache, parse: (string, string) -> (string, string),
                      layers: Layers, path: string, projectName: Option<string>, deps: seq<TaskId>, next: nat, log: seq<Task>,
                      cacheNow: Cache, ids: seq<TaskId>, count: nat, logNow: seq<Task>,
                      cacheAfter: Cache, countAfter: nat, logAfter: seq<Task>)
    requires forall j :: 0 <= j < |gens| ==> gens[j].1.Schematic?
    requires i < |gens|
    requires SchematicsRan(gens[..i], cache, parse, layers, path, projectName, deps, next, log, cacheNow, ids, count, logNow)
    requires var p := SchematicPlan(cacheNow, parse, gens[i].0, gens[i].1.invocation, layers, path, projectName);
      && p.calls.Ok? && cacheAfter == p.cache && countAfter == count + |p.calls.value|
      && logAfter == logNow + Tasks(p.calls.value, Repeat(deps, |p.calls.value|))
    ensures SchematicsRan(gens[..i + 1], cache, parse, layers, path, projectName, deps, next, log,
                          cacheAfter, ids + Range(count, countAfter), countAfter, logAfter)
  {
    assert gens[..i + 1][..i] == gens[..i];
    var before := EmitSchematics(gens[..i], cache, parse, layers, path, projectName);
    var p := SchematicPlan(cacheNow, parse, gens[i].0, gens[i].1.invocation, layers, path, projectName);
    LogStep(log, before.calls.value, p.calls.value, deps);
    RangeAppend(next, count, countAfter);
  }

  /** Node `i` raised an error after the first `i` ran: the loop, and the whole emission, stop with it. */
  lemma SchematicFails(gens: seq<(string, Node)>, i: nat, cache: Cache, parse: (string, string) -> (string, string),
                       layers: Layers, path: string, projectName: Option<string>, deps: seq<TaskId>, next: nat, log: seq<Task>,
                       cacheNow: Cache, ids: seq<TaskId>, count: nat, logNow: seq<Task>, error: BuildError, cacheAfter: Cache)
    requires forall j :: 0 <= j < |gens| ==> gens[j].1.Schematic?
    requires i < |gens|
    requires SchematicsRan(gens[..i], cache, parse, layers, path, projectName, deps, next, log, cacheNow, ids, count, logNow)
    requires var p := SchematicPlan(cacheNow, parse, gens[i].0, gens[i].1.invocation, layers, path, projectName);
      p.calls == Err(error) && cacheAfter == p.cache
    ensures SchematicsFailed(gens, cache, parse, layers, path, projectName, error, cacheAfter)
  {
    assert gens[..i + 1][..i] == gens[..i];
    SchematicsStopAtError(gens, i + 1, cache, parse, layers, path, projectName);
  }

  /**
   * One level walked without error from the cache `cache`, the list
   * `parent`, the id `next` and the log `log`: the cache, the list, the next
   * id and the log are what the emission and the walk of the level give.
   */
  ghost predicate LevelWalked(node: Node, path: string, cache: Cache, parse: (string, string) -> (string, string),
                              layers: Layers, projectName: Option<string>, parent: seq<TaskId>, next: nat, log: seq<Task>,
                              cacheNow: Cache, items: seq<TaskId>, count: nat, logNow: seq<Task>)
  {
    var e := EmitLevel(node, path, cache, parse, layers, projectName);
    var w := WalkLevel(node, parent, next);
    && e.calls.Ok? && cacheNow == e.cache && items == w.ids && count == w.next
    && |e.calls.value| == |w.deps| && logNow == log + Tasks(e.calls.value, w.deps)
  }

  /** One level raised `error`, leaving the cache `cacheNow`. */
  ghost predicate LevelFailed(node: Node, path: string, cache: Cache, parse: (string, string) -> (string, string),
                              layers: Layers, projectName: Option<string>, error: BuildError, cacheNow: Cache)
  {
    var e := EmitLevel(node, path, cache, parse, layers, projectName);
    e.calls == Err(error) && cacheNow == e.cache
  }

  /**
   * The folder loop has walked `folders` without error: the cache, the list,
   * the next id and the log are what the emission and the walk of `folders` give.
   */
  ghost predicate FoldersWalked(folders: seq<(string, Node)>, owner: Node, path: string, cache: Cache,
                                parse: (string, string) -> (string, string), layers: Layers, projectName: Option<string>,
                                branch: seq<TaskId>, parent: seq<TaskId>, next: nat, log: seq<Task>,
                                cacheNow: Cache, items: seq<TaskId>, count: nat, logNow: seq<Task>)
    requires forall i :: 0 <= i < |folders| ==> folders[i].1 < owner
  {
    var f := EmitFolders(folders, owner, path, cache, parse, layers, projectName);
    var wf := WalkFolders(folders, owner, branch, parent, next);
    && f.calls.Ok? && cacheNow == f.cache && items == wf.ids && count == wf.next
    && |f.calls.value| == |wf.deps| && logNow == log + Tasks(f.calls.value, wf.deps)
  }

  /** The folder loop raised `error`, leaving the cache `cacheNow`. */
  ghost predicate FoldersFailed(folders: seq<(string, Node)>, owner: Node, path: string, cache: Cache,
                                parse: (string, string) -> (string, string), layers: Layers, projectName: Option<string>,
                                error: BuildError, cacheNow: Cache)
    requires forall i :: 0 <= i < |folders| ==> folders[i].1 < owner
  {
    var f := EmitFolders(folders, owner, path, cache, parse, layers, projectName);
    f.calls == Err(error) && cacheNow == f.cache
  }

  /** One step of the folder loop: walking folder `j` without error extends the walk of the first `j`. */
  lemma FolderStep(folders: seq<(string, Node)>, owner: Node, j: nat, path: string, cache: Cache,
                   parse: (string, string) -> (string, string), layers: Layers, projectName: Option<string>,
                   branch: seq<TaskId>, parent: seq<TaskId>, next: nat, log: seq<Task>,
                   cacheNow: Cache, items: seq<TaskId>, count: nat, logNow: seq<Task>,
                   cacheAfter: Cache, childItems: seq<TaskId>, countAfter: nat, logAfter: seq<Task>)
    requires forall i :: 0 <= i < |folders| ==> folders[i].1 < owner
    requires j < |folders|
    requires FoldersWalked(folders[..j], owner, path, cache, parse, layers, projectName, branch, parent, next, log,
                           cacheNow, items, count, logNow)
    requires LevelWalked(folders[j].1, path + "/" + folders[j].0, cacheNow, parse, layers, projectName, branch + items, count,
                         logNow, cacheAfter, childItems, countAfter, logAfter)
    ensures FoldersWalked(folders[..j + 1], owner, path, cache, parse, layers, projectName, branch, parent, next, log,
                          cacheAfter, items + childItems, countAfter, logAfter)
  {
    assert folders[..j + 1][..j] == folders[..j];
    var f := EmitFolders(folders[..j], owner, path, cache, parse, layers, projectName);
    var wf := WalkFolders(folders[..j], owner, branch, parent, next);
    var c := EmitLevel(folders[j].1, path + "/" + folders[j].0, f.cache, parse, layers, projectName);
    var w := WalkLevel(folders[j].1, branch + wf.ids, wf.next);
    LogAppend(log, f.calls.value, c.calls.value, wf.deps, w.deps);
  }

  /** A folder whose walk raises an error ends the folder loop, and its emission, with that error. */
  lemma FolderFails(folders: seq<(string, Node)>, owner: Node, j: nat, path: string, cache: Cache,
                    parse: (string, string) -> (string, string), layers: Layers, projectName: Option<string>,
                    branch: seq<TaskId>, parent: seq<TaskId>, next: nat, log: seq<Task>,
                    cacheNow: Cache, items: seq<TaskId>, count: nat, logNow: seq<Task>, error: BuildError, cacheAfter: Cache)
    requires forall i :: 0 <= i < |folders| ==> folders[i].1 < owner
    requires j < |folders|
    requires FoldersWalked(folders[..j], owner, path, cache, parse, layers, projectName, branch, parent, next, log,
                           cacheNow, items, count, logNow)
    requires LevelFailed(folders[j].1, path + "/" + folders[j].0, cacheNow, parse, layers, projectName, error, cacheAfter)
    ensures FoldersFailed(folders, owner, path, cache, parse, layers, projectName, error, cacheAfter)
  {
    assert folders[..j + 1][..j] == folders[..j];
    FoldersStopAtError(folders, owner, j + 1, path, cache, parse, layers, projectName);
  }

  /** The folder children of a node are below it. */
  lemma FoldersBelow(node: Node)
    ensures var folders := ExtractStructures(ChildrenOf(node), FolderKind);
      forall i :: 0 <= i < |folders| ==> folders[i].1 < node
  {
  }

  /** A level whose schematic children raise an error raises it too. */
  lemma LevelFailsInSchematics(node: Node, path: string, cache: Cache, parse: (string, string) -> (string, string),
                               layers: Layers, projectName: Option<string>, error: BuildError, cacheNow: Cache)
    requires SchematicsFailed(ExtractStructures(ChildrenOf(node), SchematicKind), cache, parse, layers, path, projectName,
                              error, cacheNow)
    ensures LevelFailed(node, path, cache, parse, layers, projectName, error, cacheNow)
  {
  }

  /** A level whose folder loop raises an error, after its schematic children ran, raises it too. */
  lemma LevelFailsInFolders(node: Node, path: string, cache: Cache, parse: (string, string) -> (string, string),
                            layers: Layers, projectName: Option<string>, parent: seq<TaskId>, next: nat, log: seq<Task>,
                            cacheS: Cache, branch: seq<TaskId>, countS: nat, logS: seq<Task>, error: BuildError, cacheNow: Cache)
    requires SchematicsRan(ExtractStructures(ChildrenOf(node), SchematicKind), cache, parse, layers, path, projectName,
                           parent, next, log, cacheS, branch, countS, logS)
    requires var folders := ExtractStructures(ChildrenOf(node), FolderKind);
      && (forall i :: 0 <= i < |folders| ==> folders[i].1 < node)
      && FoldersFailed(folders, node, path, cacheS, parse, layers, projectName, error, cacheNow)
    ensures LevelFailed(node, path, cache, parse, layers, projectName, error, cacheNow)
  {
  }

  /**
   * One level of the walk and of the emission, in terms of the schematic
   * children's part and the folder loop's part: the two parts run one after
   * the other walk the level.
   */
  lemma LevelFromParts(node: Node, path: string, cache: Cache, parse: (string, string) -> (string, string),
                       layers: Layers, projectName: Option<string>, parent: seq<TaskId>, next: nat, log: seq<Task>,
                       cacheS: Cache, branch: seq<TaskId>, countS: nat, logS: seq<Task>,
                       cacheNow: Cache, items: seq<TaskId>, count: nat, logNow: seq<Task>)
    requires SchematicsRan(ExtractStructures(ChildrenOf(node), SchematicKind), cache, parse, layers, path, projectName,
                           parent, next, log, cacheS, branch, countS, logS)
    requires var folders := ExtractStructures(ChildrenOf(node), FolderKind);
      && (forall i :: 0 <= i < |folders| ==> folders[i].1 < node)
      && FoldersWalked(folders, node, path, cacheS, parse, layers, projectName, branch, parent, countS, logS,
                       cacheNow, items, count, logNow)
    ensures LevelWalked(node, path, cache, parse, layers, projectName, parent, next, log, cacheNow, items, count, logNow)
  {
    var gens := ExtractStructures(ChildrenOf(node), SchematicKind);
    var folders := ExtractStructures(ChildrenOf(node), FolderKind);
    var s := EmitSchematics(gens, cache, parse, layers, path, projectName);
    var f := EmitFolders(folders, node, path, cacheS, parse, layers, projectName);
    var wf := WalkFolders(folders, node, branch, parent, countS);
    var branchDeps := SchematicDeps(gens, parent);
    assert branchDeps == Repeat(parent, |s.calls.value|) by {
      SchematicsCountTasks(gens, node, cache, parse, layers, path, projectName);
      SchematicDepsCount(gens, node, parent);
    }
    WalkLevelIs(node, parent, next, branchDeps, branch, countS, wf);
    EmitLevelIs(node, path, cache, parse, layers, projectName, s, f);
    LogAppend(log, s.calls.value, f.calls.value, branchDeps, wf.deps);
  }

  /** One level of the emission, in terms of its schematic children's and its folder loop's. */
  lemma EmitLevelIs(node: Node, path: string, cache: Cache, parse: (string, string) -> (string, string),
                    layers: Layers, projectName: Option<string>, s: Outcome, f: Outcome)
    requires s == EmitSchematics(ExtractStructures(ChildrenOf(node), SchematicKind), cache, parse, layers, path, projectName)
    requires s.calls.Ok?
    requires f == EmitFolders(ExtractStructures(ChildrenOf(node), FolderKind), node, path, s.cache, parse, layers, projectName)
    requires f.calls.Ok?
    ensures EmitLevel(node, path, cache, parse, layers, projectName) == Outcome(Ok(s.calls.value + f.calls.value), f.cache)
  {
  }

  /** One level of the walk, in terms of its schematic children's dependencies and its folder loop. */
  lemma WalkLevelIs(node: Node, parent: seq<TaskId>, next: nat, branchDeps: seq<seq<TaskId>>, branch: seq<TaskId>,
                    count: nat, wf: Walk)
    requires branchDeps == SchematicDeps(ExtractStructures(ChildrenOf(node), SchematicKind), parent)
    requires count == next + |branchDeps| && branch == Range(next, count)
    requires wf == WalkFolders(ExtractStructures(ChildrenOf(node), FolderKind), node, branch, parent, count)
    ensures WalkLevel(node, parent, next) == Walk(wf.ids, wf.next, branchDeps + wf.deps)
  {
  }
}
