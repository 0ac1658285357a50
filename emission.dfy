/**
 * The tasks a walk of the spec tree submits, in submission order, for a walk
 * that may stop at the first error. The dependencies of those tasks are given
 * separately by `Structure.WalkLevel`; `Tasks` pairs the two up.
 */
module Emission {
  import opened Common
  import opened Resolver
  import opened Structure
  import opened Schematic
  import opened Dispatch

  /** The calls submitted (or the first error raised), and the memo cache afterwards. */
  datatype Outcome = Outcome(calls: Result<seq<Call>>, cache: Cache)

  /** The task a call becomes when submitted with the dependency list `deps`. */
  function TaskOf(call: Call, deps: seq<TaskId>): Task
  {
    Task(Some(call.collection), call.schematic, Options(call.options), deps)
  }

  /** The tasks `calls` become when submitted with the dependency lists `deps`, one by one. */
  function Tasks(calls: seq<Call>, deps: seq<seq<TaskId>>): (r: seq<Task>)
    requires |calls| == |deps|
    ensures |r| == |calls|
  {
    seq(|calls|, i requires 0 <= i < |calls| => TaskOf(calls[i], deps[i]))
  }

  /** Submitting two runs of calls one after the other gives the tasks of each in turn. */
  lemma TasksAppend(a: seq<Call>, b: seq<Call>, da: seq<seq<TaskId>>, db: seq<seq<TaskId>>)
    requires |a| == |da| && |b| == |db|
    ensures Tasks(a + b, da + db) == Tasks(a, da) + Tasks(b, db)
  {
  }

  /** The schematic nodes `gens` of one folder (or the workspace's top-level schematics), in key order. */
  function EmitSchematics(gens: seq<(string, Node)>, cache: Cache, parse: (string, string) -> (string, string),
                          layers: Layers, path: string, projectName: Option<string>): Outcome
    requires forall i :: 0 <= i < |gens| ==> gens[i].1.Schematic?
  {
    if gens == [] then Outcome(Ok([]), cache)
    else
      var n := |gens| - 1;
      var before := EmitSchematics(gens[..n], cache, parse, layers, path, projectName);
      if before.calls.Err? then before
      else
        var p := SchematicPlan(before.cache, parse, gens[n].0, gens[n].1.invocation, layers, path, projectName);
        Outcome(if p.calls.Err? then Err(p.calls.error) else Ok(before.calls.value + p.calls.value), p.cache)
  }

  /** The walk of `processStructure` under `path`: this level's schematics, then each folder under `path/<key>`. */
  function EmitLevel(node: Node, path: string, cache: Cache, parse: (string, string) -> (string, string),
                     layers: Layers, projectName: Option<string>): Outcome
    decreases node, 1
  {
    var content := ChildrenOf(node);
    var s := EmitSchematics(ExtractStructures(content, SchematicKind), cache, parse, layers, path, projectName);
    if s.calls.Err? then s
    else
      var f := EmitFolders(ExtractStructures(content, FolderKind), node, path, s.cache, parse, layers, projectName);
      Outcome(if f.calls.Err? then f.calls else Ok(s.calls.value + f.calls.value), f.cache)
  }

  /** The folder children `folders` of `owner`, in key order, each walked as a level under `path/<key>`. */
  function EmitFolders(folders: seq<(string, Node)>, ghost owner: Node, path: string, cache: Cache,
                       parse: (string, string) -> (string, string), layers: Layers, projectName: Option<string>): Outcome
    requires forall i :: 0 <= i < |folders| ==> folders[i].1 < owner
    decreases owner, 0, |folders|
  {
    if folders == [] then Outcome(Ok([]), cache)
    else
      var n := |folders| - 1;
      var before := EmitFolders(folders[..n], owner, path, cache, parse, layers, projectName);
      if before.calls.Err? then before
      else
        var child := EmitLevel(folders[n].1, path + "/" + folders[n].0, before.cache, parse, layers, projectName);
        Outcome(if child.calls.Err? then child.calls else Ok(before.calls.value + child.calls.value), child.cache)
  }

  /** A walk that raises no error submits one task per schematic invocation reachable through folders. */
  lemma {:induction false} EmitCountsTasks(node: Node, path: string, cache: Cache, parse: (string, string) -> (string, string),
                                           layers: Layers, projectName: Option<string>)
    ensures var e := EmitLevel(node, path, cache, parse, layers, projectName);
      e.calls.Ok? ==> |e.calls.value| == CountTasks(node)
    decreases node, 1
  {
    var content := ChildrenOf(node);
    var gens := ExtractStructures(content, SchematicKind);
    SchematicsCountTasks(gens, node, cache, parse, layers, path, projectName);
    var s := EmitSchematics(gens, cache, parse, layers, path, projectName);
    if s.calls.Ok? {
      FoldersCountTasksEmitted(ExtractStructures(content, FolderKind), node, path, s.cache, parse, layers, projectName);
    }
  }

  /** The schematics emit one call per task they count. */
  lemma {:induction false} SchematicsCountTasks(gens: seq<(string, Node)>, owner: Node, cache: Cache,
                                                parse: (string, string) -> (string, string), layers: Layers,
                                                path: string, projectName: Option<string>)
    requires forall i :: 0 <= i < |gens| ==> gens[i].1 < owner && gens[i].1.Schematic?
    ensures var e := EmitSchematics(gens, cache, parse, layers, path, projectName);
      e.calls.Ok? ==> |e.calls.value| == CountAll(gens, owner)
    decreases |gens|
  {
    if gens != [] {
      var n := |gens| - 1;
      SchematicsCountTasks(gens[..n], owner, cache, parse, layers, path, projectName);
      var before := EmitSchematics(gens[..n], cache, parse, layers, path, projectName);
      if before.calls.Ok? {
        PlanCountsTasks(before.cache, parse, gens[n].0, gens[n].1.invocation, layers, path, projectName);
      }
    }
  }

  /** The folders emit one call per task they count. */
  lemma {:induction false} FoldersCountTasksEmitted(folders: seq<(string, Node)>, owner: Node, path: string, cache: Cache,
                                                    parse: (string, string) -> (string, string), layers: Layers,
                                                    projectName: Option<string>)
    requires forall i :: 0 <= i < |folders| ==> folders[i].1 < owner && folders[i].1.Folder?
    ensures var e := EmitFolders(folders, owner, path, cache, parse, layers, projectName);
      e.calls.Ok? ==> |e.calls.value| == CountAll(folders, owner)
    decreases owner, 0, |folders|
  {
    if folders != [] {
      var n := |folders| - 1;
      FoldersCountTasksEmitted(folders[..n], owner, path, cache, parse, layers, projectName);
      var before := EmitFolders(folders[..n], owner, path, cache, parse, layers, projectName);
      if before.calls.Ok? {
        EmitCountsTasks(folders[n].1, path + "/" + folders[n].0, before.cache, parse, layers, projectName);
      }
    }
  }

  /** A schematic after an error is not processed. */
  lemma SchematicsAfterError(before: seq<(string, Node)>, gen: (string, Node), cache: Cache,
                             parse: (string, string) -> (string, string), layers: Layers,
                             path: string, projectName: Option<string>)
    requires forall i :: 0 <= i < |before| ==> before[i].1.Schematic?
    requires gen.1.Schematic? && EmitSchematics(before, cache, parse, layers, path, projectName).calls.Err?
    ensures EmitSchematics(before + [gen], cache, parse, layers, path, projectName)
         == EmitSchematics(before, cache, parse, layers, path, projectName)
  {
    assert (before + [gen])[..|before|] == before;
  }

  /** Once a prefix of the schematics raises an error, the rest of them are not processed. */
  lemma {:induction false} SchematicsStopAtError(gens: seq<(string, Node)>, k: nat, cache: Cache,
                                                 parse: (string, string) -> (string, string), layers: Layers,
                                                 path: string, projectName: Option<string>)
    requires forall i :: 0 <= i < |gens| ==> gens[i].1.Schematic?
    requires k <= |gens| && EmitSchematics(gens[..k], cache, parse, layers, path, projectName).calls.Err?
    ensures EmitSchematics(gens, cache, parse, layers, path, projectName) == EmitSchematics(gens[..k], cache, parse, layers, path, projectName)
    decreases |gens| - k
  {
    if k < |gens| {
      var n := |gens| - 1;
      assert gens[..n][..k] == gens[..k];
      SchematicsStopAtError(gens[..n], k, cache, parse, layers, path, projectName);
      SchematicsAfterError(gens[..n], gens[n], cache, parse, layers, path, projectName);
      assert gens[..n] + [gens[n]] == gens;
    } else {
      assert gens[..k] == gens;
    }
  }

  /** Once a prefix of the folders raises an error, the rest of them are not walked. */
  lemma {:induction false} FoldersStopAtError(folders: seq<(string, Node)>, owner: Node, k: nat, path: string, cache: Cache,
                                              parse: (string, string) -> (string, string), layers: Layers,
                                              projectName: Option<string>)
    requires forall i :: 0 <= i < |folders| ==> folders[i].1 < owner
    requires k <= |folders| && EmitFolders(folders[..k], owner, path, cache, parse, layers, projectName).calls.Err?
    ensures EmitFolders(folders, owner, path, cache, parse, layers, projectName)
         == EmitFolders(folders[..k], owner, path, cache, parse, layers, projectName)
    decreases |folders| - k
  {
    if k < |folders| {
      var n := |folders| - 1;
      assert folders[..n][..k] == folders[..k];
      FoldersStopAtError(folders[..n], owner, k, path, cache, parse, layers, projectName);
    } else {
      assert folders[..k] == folders;
    }
  }

  /** Two runs of the same element make one run as long as both. */
  lemma RepeatAppend<T>(x: T, a: nat, b: nat)
    ensures Repeat(x, a) + Repeat(x, b) == Repeat(x, a + b)
  {
    assert forall i :: 0 <= i < a + b ==> (Repeat(x, a) + Repeat(x, b))[i] == x;
  }

  /** Submitting `a` and then `b` logs what submitting `a + b` logs. */
  lemma LogAppend(log: seq<Task>, a: seq<Call>, b: seq<Call>, da: seq<seq<TaskId>>, db: seq<seq<TaskId>>)
    requires |a| == |da| && |b| == |db|
    ensures log + Tasks(a, da) + Tasks(b, db) == log + Tasks(a + b, da + db)
  {
    TasksAppend(a, b, da, db);
  }

  /** Submitting `a` and then `b`, every task on `deps`, logs what submitting `a + b` on `deps` logs. */
  lemma LogStep(log: seq<Task>, a: seq<Call>, b: seq<Call>, deps: seq<TaskId>)
    ensures log + Tasks(a, Repeat(deps, |a|)) + Tasks(b, Repeat(deps, |b|)) == log + Tasks(a + b, Repeat(deps, |a + b|))
  {
    RepeatAppend(deps, |a|, |b|);
    LogAppend(log, a, b, Repeat(deps, |a|), Repeat(deps, |b|));
  }
}
