/**
 * The task dispatcher the schematic talks to through `context.addTask`:
 * every submission is recorded and answered with a fresh id. Ids are handed
 * out by a counter, so a task's id is its position in the log.
 */
module Dispatch {
  import opened Common
  import opened Structure

  /** An entry of the `packages` list of the `checkPackages` task. */
  datatype Package = Package(packageName: string, version: Option<Value>)

  /** The options object a `RunSchematicTask` carries. */
  datatype TaskOptions =
    | Options(config: Config)
    | CheckPackagesOptions(packages: seq<Package>)
    | AddCollectionsOptions(packageNames: seq<string>)
    | CheckProjectsOptions(projects: seq<(string, Project)>, projectNames: seq<string>)

  /**
   * `new RunSchematicTask(collection, schematic, options)` submitted with its
   * dependencies; the collection is `None` for the one-argument form, which
   * runs a schematic of the builder's own collection.
   */
  datatype Task = Task(collection: Option<string>, schematic: string, options: TaskOptions, deps: seq<TaskId>)

  class Dispatcher {
    var count: nat
    var log: seq<Task>

    /** Ids count submissions, and a task only depends on tasks submitted before it. */
    ghost predicate Valid()
      reads this
    {
      && count == |log|
      && forall i, d :: 0 <= i < |log| && d in log[i].deps ==> d < i
    }

    /** Every id in `ids` has already been handed out. */
    ghost predicate Issued(ids: seq<TaskId>)
      reads this
    {
      forall d :: d in ids ==> d < count
    }

    constructor ()
      ensures Valid() && log == []
    {
      count := 0;
      log := [];
    }

    /** `context.addTask(task, deps)`: records the task and returns its fresh id. */
    method AddTask(collection: Option<string>, schematic: string, options: TaskOptions, deps: seq<TaskId>)
      returns (id: TaskId)
      requires Valid() && Issued(deps)
      modifies this
      ensures Valid()
      ensures id == old(count) && count == old(count) + 1
      ensures log == old(log) + [Task(collection, schematic, options, deps)]
    {
      id := count;
      log := log + [Task(collection, schematic, options, deps)];
      count := count + 1;
    }
  }
}
