/**
 * The workspace-level steps of the build schematic (build/index.ts): the
 * `$schema` check, the setup tasks, the top-level schematics and
 * `processProjects`, each run on the `Builder` of the run (its task queue,
 * settings cache and name parser).
 */
module Run {
  import opened Common
  import opened Resolver
  import opened Structure
  import opened Schematic
  import opened Emission
  import opened Dispatch
  import opened Workspace
  import opened Build

  /**
   * `checkCollections`: when `installCollection` is truthy, submits a
   * `checkPackages` task with one package entry per collection of the
   * settings (every one when `addCollections` is truthy, the ones `picked`
   * at the prompt otherwise) and returns its id.
   */
  method CheckCollections(b: Builder, settings: Layer, installCollection: Value, addCollections: Value, picked: seq<Package>)
    returns (taskId: Option<TaskId>)
    requires b.disp.Valid()
    modifies b.disp
    ensures b.disp.Valid()
    ensures b.disp.log == old(b.disp.log) + CheckPackagesTasks(settings, installCollection, addCollections, picked)
    ensures taskId == if IsTruthy(installCollection) then Some(old(b.disp.count)) else None
  {
    if !IsTruthy(installCollection) {
      return None;
    }
    var collections: seq<Package> := [];
    var i := 0;
    while i < |settings|
      invariant 0 <= i <= |settings| && |collections| == i
      invariant forall j :: 0 <= j < i ==> collections[j] == PackageOf(settings[j].0, settings[j].1)
    {
      var version := Field(settings[i].1, "version");
      var collection := Package(settings[i].0, if IsTruthy(version) then Some(version) else None);
      collections := collections + [collection];
      i := i + 1;
    }
    assert collections == PackagesOf(settings);
    var toInstall := if IsTruthy(addCollections) then collections else picked;
    var id := b.disp.AddTask(None, "checkPackages", CheckPackagesOptions(toInstall), []);
    return Some(id);
  }

  /** `addCollectionsToAngularJson`: submits the `AddCollectionsAngularJson` task for every collection name. */
  method AddCollectionsToAngularJson(b: Builder, settings: Layer) returns (taskId: TaskId)
    requires b.disp.Valid()
    modifies b.disp
    ensures b.disp.Valid() && taskId == old(b.disp.count)
    ensures b.disp.log == old(b.disp.log) + [AddCollectionsTask(settings)]
  {
    var collections: seq<string> := [];
    var i := 0;
    while i < |settings|
      invariant 0 <= i <= |settings| && collections == Keys(settings[..i])
    {
      assert settings[..i + 1] == settings[..i] + [settings[i]];
      collections := collections + [settings[i].0];
      i := i + 1;
    }
    assert settings[..i] == settings;
    taskId := b.disp.AddTask(None, "AddCollectionsAngularJson", AddCollectionsOptions(collections), []);
  }

  /**
   * `ensureProjectExists`: submits the `checkProjects` task with no
   * dependencies and returns `parentTasks` followed by its id.
   */
  method EnsureProjectExists(b: Builder, projects: seq<(string, Project)>, parentTasks: seq<TaskId>) returns (ids: seq<TaskId>)
    requires b.disp.Valid()
    modifies b.disp
    ensures b.disp.Valid()
    ensures b.disp.log == old(b.disp.log) + [CheckProjectsTask(projects)]
    ensures ids == parentTasks + [old(b.disp.count)]
  {
    var taskId := b.disp.AddTask(None, "checkProjects", CheckProjectsOptions(projects, Keys(projects)), []);
    return parentTasks + [taskId];
  }

  /**
   * `executeGlobalSchematicRules`: every top-level key of the spec run as a
   * schematic at `/`, with the global settings alone, each depending on
   * `parentTaskIds`; returns the ids of all their tasks.
   */
  method ExecuteGlobalSchematicRules(b: Builder, schematics: seq<(string, Invocation)>, parentTaskIds: seq<TaskId>,
                                     projectName: Option<string>, settings: Layer)
    returns (r: Result<seq<TaskId>>)
    requires b.disp.Valid() && b.disp.Issued(parentTaskIds)
    modifies b.disp, b.resolver
    ensures b.disp.Valid() && old(b.disp.count) <= b.disp.count
    ensures var g := GlobalRun(schematics, settings, projectName, old(b.resolver.cache), b.parse, parentTaskIds);
      && b.resolver.cache == g.cache
      && (g.result.Err? <==> r.Err?)
      && (g.result.Err? ==> r.error == g.result.error)
      && (g.result.Ok? ==> && r == Ok(Range(old(b.disp.count), b.disp.count))
                           && b.disp.count == old(b.disp.count) + |g.result.value|
                           && b.disp.log == old(b.disp.log) + g.result.value)
  {
    ghost var cache0 := b.resolver.cache;
    ghost var count0 := b.disp.count;
    ghost var log0 := b.disp.log;
    r := b.ProcessSchematics(AsSchematics(schematics), Layers(Some(settings), None), parentTaskIds, "/", projectName);
    if r.Ok? {
      GlobalRan(schematics, settings, projectName, cache0, b.parse, parentTaskIds, count0, log0,
                b.resolver.cache, r.value, b.disp.count, b.disp.log);
    } else {
      GlobalFailed(schematics, settings, projectName, cache0, b.parse, parentTaskIds, r.error, b.resolver.cache);
    }
  }

  /** The top-level schematics ran without error: what they submitted is what `GlobalRun` gives. */
  lemma GlobalRan(schematics: seq<(string, Invocation)>, settings: Layer, name: Option<string>, cache: Cache,
                  parse: (string, string) -> (string, string), parents: seq<TaskId>, next: nat, log: seq<Task>,
                  cacheNow: Cache, ids: seq<TaskId>, count: nat, logNow: seq<Task>)
    requires SchematicsRan(AsSchematics(schematics), cache, parse, Layers(Some(settings), None), "/", name, parents,
                           next, log, cacheNow, ids, count, logNow)
    ensures var g := GlobalRun(schematics, settings, name, cache, parse, parents);
      && g.result.Ok? && g.cache == cacheNow && ids == Range(next, count)
      && count == next + |g.result.value| && logNow == log + g.result.value
  {
  }

  /** The top-level schematics raised `error`: so does `GlobalRun`. */
  lemma GlobalFailed(schematics: seq<(string, Invocation)>, settings: Layer, name: Option<string>, cache: Cache,
                     parse: (string, string) -> (string, string), parents: seq<TaskId>, error: BuildError, cacheNow: Cache)
    requires SchematicsFailed(AsSchematics(schematics), cache, parse, Layers(Some(settings), None), "/", name, error, cacheNow)
    ensures var g := GlobalRun(schematics, settings, name, cache, parse, parents);
      g.result == Err(error) && g.cache == cacheNow
  {
  }

  /** One more job walked without error after `jobs`: the walk goes on from where they left it. */
  lemma JobWalked(jobs: seq<Job>, job: Job, cache: Cache, parse: (string, string) -> (string, string),
                  parent: seq<TaskId>, next: nat, log: seq<Task>,
                  cacheNow: Cache, parentNow: seq<TaskId>, pushed: seq<TaskId>, count: nat, logNow: seq<Task>,
                  cacheAfter: Cache, parentAfter: seq<TaskId>, countAfter: nat, logAfter: seq<Task>)
    requires JobsWalked(jobs, cache, parse, parent, next, log, cacheNow, parentNow, pushed, count, logNow)
    requires LevelWalked(job.node, job.path, cacheNow, parse, job.layers, Some(job.projectName),
                         parentNow, count, logNow, cacheAfter, parentAfter, countAfter, logAfter)
    ensures JobsWalked(jobs + [job], cache, parse, parent, next, log, cacheAfter, parentAfter, pushed + parentAfter,
                       countAfter, logAfter)
  {
    JobStep(jobs, job, cache, parse, parent, next);
    var e := EmitJobs(jobs, cache, parse);
    var w := WalkJobs(jobs, parent, next);
    var c := EmitLevel(job.node, job.path, e.cache, parse, job.layers, Some(job.projectName));
    var l := WalkLevel(job.node, w.parent, w.next);
    LogAppend(log, e.calls.value, c.calls.value, w.deps, l.deps);
  }

  /** A job that raised an error after `jobs` ran: the jobs stop with it. */
  lemma JobFails(jobs: seq<Job>, job: Job, cache: Cache, parse: (string, string) -> (string, string),
                 parent: seq<TaskId>, next: nat, log: seq<Task>,
                 cacheNow: Cache, parentNow: seq<TaskId>, pushed: seq<TaskId>, count: nat, logNow: seq<Task>,
                 error: BuildError, cacheAfter: Cache)
    requires JobsWalked(jobs, cache, parse, parent, next, log, cacheNow, parentNow, pushed, count, logNow)
    requires LevelFailed(job.node, job.path, cacheNow, parse, job.layers, Some(job.projectName), error, cacheAfter)
    ensures JobsFailed(jobs + [job], cache, parse, error, cacheAfter)
  {
    JobStep(jobs, job, cache, parse, parent, next);
  }

  /** Jobs that raise an error stop every longer list of jobs they begin. */
  lemma JobsFailedExtends(jobs: seq<Job>, all: seq<Job>, cache: Cache, parse: (string, string) -> (string, string),
                          error: BuildError, cacheNow: Cache)
    requires jobs <= all && JobsFailed(jobs, cache, parse, error, cacheNow)
    ensures JobsFailed(all, cache, parse, error, cacheNow)
  {
    JobsStopAtError(jobs, all[|jobs|..], cache, parse);
    assert jobs + all[|jobs|..] == all;
  }

  /** Jobs walked without error: what they submitted is what `ProjectsRun` gives. */
  lemma ProjectsRunWalked(jobs: seq<Job>, cache: Cache, parse: (string, string) -> (string, string),
                          shared: seq<TaskId>, next: nat, log: seq<Task>,
                          cacheNow: Cache, parentNow: seq<TaskId>, pushed: seq<TaskId>, count: nat, logNow: seq<Task>)
    requires JobsWalked(jobs, cache, parse, shared, next, log, cacheNow, parentNow, pushed, count, logNow)
    ensures var p := ProjectsRun(jobs, cache, parse, shared, next);
      p.result.Ok? && p.cache == cacheNow && logNow == log + p.result.value
  {
  }

  /** Jobs that raised `error`: so does `ProjectsRun`. */
  lemma ProjectsRunFailed(jobs: seq<Job>, cache: Cache, parse: (string, string) -> (string, string),
                          shared: seq<TaskId>, next: nat, error: BuildError, cacheNow: Cache)
    requires JobsFailed(jobs, cache, parse, error, cacheNow)
    ensures var p := ProjectsRun(jobs, cache, parse, shared, next);
      p.result == Err(error) && p.cache == cacheNow
  {
  }

  /**
   * One `processStructure` call of `processProjects`: the structure `structure`
   * as a one-key folder on the shared list `parentTasks`, whose ids afterwards
   * are appended to `taskIds`, after the jobs `done` ran from the cache
   * `cache0`, the list `p0`, the id `count0` and the log `log0`.
   */
  method ProcessStructureJob(b: Builder, path: string, layers: Layers, structure: (string, Node), name: string,
                             parentTasks: IdList, taskIds: IdList, ghost done: seq<Job>,
                             ghost cache0: Cache, ghost p0: seq<TaskId>, ghost count0: nat, ghost log0: seq<Task>)
    returns (failed: Option<BuildError>)
    requires parentTasks != taskIds
    requires b.disp.Valid() && b.disp.Issued(parentTasks.items)
    requires JobsWalked(done, cache0, b.parse, p0, count0, log0,
                        b.resolver.cache, parentTasks.items, taskIds.items, b.disp.count, b.disp.log)
    modifies parentTasks, taskIds, b.disp, b.resolver
    ensures b.disp.Valid() && b.disp.Issued(parentTasks.items)
    ensures failed.None? ==> JobsWalked(done + [Job(path, layers, Folder([structure]), name)], cache0, b.parse, p0, count0, log0,
                                        b.resolver.cache, parentTasks.items, taskIds.items, b.disp.count, b.disp.log)
    ensures failed.Some? ==> JobsFailed(done + [Job(path, layers, Folder([structure]), name)], cache0, b.parse,
                                        failed.value, b.resolver.cache)
  {
    ghost var job := Job(path, layers, Folder([structure]), name);
    ghost var cacheA := b.resolver.cache;
    ghost var parentA := parentTasks.items;
    ghost var countA := b.disp.count;
    ghost var logA := b.disp.log;
    var res := b.ProcessStructure(path, layers, Folder([structure]), parentTasks, Some(name));
    if res.Err? {
      JobFails(done, job, cache0, b.parse, p0, count0, log0, cacheA, parentA, taskIds.items, countA, logA,
               res.error, b.resolver.cache);
      return Some(res.error);
    }
    JobWalked(done, job, cache0, b.parse, p0, count0, log0, cacheA, parentA, taskIds.items, countA, logA,
              b.resolver.cache, parentTasks.items, b.disp.count, b.disp.log);
    taskIds.items := taskIds.items + res.value.items;
    return None;
  }

  /** The jobs of the first `s + 1` structures are those of the first `s` and one more. */
  lemma StructureJobsStep(done: seq<Job>, path: string, layers: Layers, name: string, structures: seq<(string, Node)>, s: nat)
    requires s < |structures|
    ensures done + StructureJobs(path, layers, name, structures[..s + 1])
         == done + StructureJobs(path, layers, name, structures[..s]) + [Job(path, layers, Folder([structures[s]]), name)]
  {
    var before := StructureJobs(path, layers, name, structures[..s]);
    var after := StructureJobs(path, layers, name, structures[..s + 1]);
    assert after == before + [Job(path, layers, Folder([structures[s]]), name)];
    assert done + (before + [Job(path, layers, Folder([structures[s]]), name)])
        == done + before + [Job(path, layers, Folder([structures[s]]), name)];
  }

  /** The jobs of the first `s` structures begin the jobs of all of them. */
  lemma StructureJobsPrefix(done: seq<Job>, path: string, layers: Layers, name: string, structures: seq<(string, Node)>, s: nat)
    requires s <= |structures|
    ensures done + StructureJobs(path, layers, name, structures[..s]) <= done + StructureJobs(path, layers, name, structures)
  {
    var all := done + StructureJobs(path, layers, name, structures);
    assert (done + StructureJobs(path, layers, name, structures[..s])) == all[..|done| + s];
  }

  /**
   * The structures of one project in `processProjects`: each as a one-key
   * folder at the project's path, on the shared list `parentTasks`, whose
   * ids after each structure are appended to `taskIds`. `done` are the jobs
   * run before, from the cache `cache0`, the list `p0`, the id `count0` and
   * the log `log0`.
   */
  method ProcessProjectStructures(b: Builder, path: string, layers: Layers, name: string, structures: seq<(string, Node)>,
                                  parentTasks: IdList, taskIds: IdList, ghost done: seq<Job>, ghost cache0: Cache,
                                  ghost p0: seq<TaskId>, ghost count0: nat, ghost log0: seq<Task>)
    returns (failed: Option<BuildError>)
    requires parentTasks != taskIds
    requires b.disp.Valid() && b.disp.Issued(parentTasks.items)
    requires JobsWalked(done, cache0, b.parse, p0, count0, log0,
                        b.resolver.cache, parentTasks.items, taskIds.items, b.disp.count, b.disp.log)
    modifies parentTasks, taskIds, b.disp, b.resolver
    ensures b.disp.Valid() && b.disp.Issued(parentTasks.items)
    ensures failed.None? ==> JobsWalked(done + StructureJobs(path, layers, name, structures), cache0, b.parse, p0, count0, log0,
                                        b.resolver.cache, parentTasks.items, taskIds.items, b.disp.count, b.disp.log)
    ensures failed.Some? ==> JobsFailed(done + StructureJobs(path, layers, name, structures), cache0, b.parse,
                                        failed.value, b.resolver.cache)
  {
    ghost var walked := done;
    assert structures[..0] == [];
    var s := 0;
    while s < |structures|
      invariant 0 <= s <= |structures|
      invariant walked == done + StructureJobs(path, layers, name, structures[..s])
      invariant b.disp.Valid() && b.disp.Issued(parentTasks.items)
      invariant JobsWalked(walked, cache0, b.parse, p0, count0, log0,
                           b.resolver.cache, parentTasks.items, taskIds.items, b.disp.count, b.disp.log)
    {
      failed := ProcessStructureJob(b, path, layers, structures[s], name, parentTasks, taskIds, walked,
                                    cache0, p0, count0, log0);
      StructureJobsStep(done, path, layers, name, structures, s);
      ghost var job := Job(path, layers, Folder([structures[s]]), name);
      if failed.Some? {
        StructureJobsPrefix(done, path, layers, name, structures, s + 1);
        JobsFailedExtends(walked + [job], done + StructureJobs(path, layers, name, structures), cache0, b.parse,
                          failed.value, b.resolver.cache);
        return;
      }
      walked := walked + [job];
      s := s + 1;
    }
    assert structures[..s] == structures;
    return None;
  }

  /**
   * One round of `processProjects`: the structures of the project at
   * `i`, at its root and with its settings layered over the global ones.
   */
  method ProcessProject(b: Builder, projects: seq<(string, Project)>, i: nat, settings: Layer, roots: map<string, string>,
                        newProjectRoot: string, parentTasks: IdList, taskIds: IdList, ghost cache0: Cache,
                        ghost p0: seq<TaskId>, ghost count0: nat, ghost log0: seq<Task>)
    returns (failed: Option<BuildError>)
    requires i < |projects| && parentTasks != taskIds
    requires b.disp.Valid() && b.disp.Issued(parentTasks.items)
    requires JobsWalked(ProjectJobs(projects[..i], settings, roots, newProjectRoot), cache0, b.parse, p0, count0, log0,
                        b.resolver.cache, parentTasks.items, taskIds.items, b.disp.count, b.disp.log)
    modifies parentTasks, taskIds, b.disp, b.resolver
    ensures b.disp.Valid() && b.disp.Issued(parentTasks.items)
    ensures failed.None? ==> JobsWalked(ProjectJobs(projects[..i + 1], settings, roots, newProjectRoot), cache0, b.parse,
                                        p0, count0, log0, b.resolver.cache, parentTasks.items, taskIds.items,
                                        b.disp.count, b.disp.log)
    ensures failed.Some? ==> JobsFailed(ProjectJobs(projects, settings, roots, newProjectRoot), cache0, b.parse,
                                        failed.value, b.resolver.cache)
  {
    var (name, project) := projects[i];
    var path := ProjectPath(name, roots, newProjectRoot);
    var layers := ProjectLayers(settings, project);
    ProjectJobsStep(projects, i, settings, roots, newProjectRoot);
    failed := ProcessProjectStructures(b, path, layers, name, project.structures, parentTasks, taskIds,
                                       ProjectJobs(projects[..i], settings, roots, newProjectRoot), cache0, p0, count0, log0);
    if failed.Some? {
      ProjectJobsPrefix(projects, i + 1, settings, roots, newProjectRoot);
      JobsFailedExtends(ProjectJobs(projects[..i + 1], settings, roots, newProjectRoot),
                        ProjectJobs(projects, settings, roots, newProjectRoot), cache0, b.parse, failed.value, b.resolver.cache);
    }
  }

  /**
   * `processProjects`: for each project in key order, at its workspace
   * root (or `newProjectRoot/<name>` when the workspace lacks it), with the
   * global settings and its own, runs its structures on the one shared list
   * `parentTasks`; returns the list as it stood after each structure, all
   * concatenated.
   */
  method ProcessProjects(b: Builder, projects: seq<(string, Project)>, settings: Layer, roots: map<string, string>,
                         newProjectRoot: string, parentTasks: IdList)
    returns (r: Result<seq<TaskId>>)
    requires b.disp.Valid() && b.disp.Issued(parentTasks.items)
    modifies parentTasks, b.disp, b.resolver
    ensures b.disp.Valid()
    ensures r.Ok? ==> JobsWalked(ProjectJobs(projects, settings, roots, newProjectRoot), old(b.resolver.cache), b.parse,
                                 old(parentTasks.items), old(b.disp.count), old(b.disp.log),
                                 b.resolver.cache, parentTasks.items, r.value, b.disp.count, b.disp.log)
    ensures r.Err? ==> JobsFailed(ProjectJobs(projects, settings, roots, newProjectRoot), old(b.resolver.cache), b.parse,
                                 r.error, b.resolver.cache)
  {
    ghost var cache0 := b.resolver.cache;
    ghost var p0 := parentTasks.items;
    ghost var count0 := b.disp.count;
    ghost var log0 := b.disp.log;
    var taskIds := new IdList([]);
    var i := 0;
    while i < |projects|
      invariant 0 <= i <= |projects| && fresh(taskIds)
      invariant b.disp.Valid() && b.disp.Issued(parentTasks.items)
      invariant JobsWalked(ProjectJobs(projects[..i], settings, roots, newProjectRoot), cache0, b.parse, p0, count0, log0,
                           b.resolver.cache, parentTasks.items, taskIds.items, b.disp.count, b.disp.log)
    {
      var failed := ProcessProject(b, projects, i, settings, roots, newProjectRoot, parentTasks, taskIds,
                                   cache0, p0, count0, log0);
      if failed.Some? {
        return Err(failed.value);
      }
      i := i + 1;
    }
    assert projects[..i] == projects;
    return Ok(taskIds.items);
  }

  /**
   * `processProjects` on a new list holding the ids `globalIds`, then
   * `projectsTaskIds`, then `packagesTaskIds`, its result ignored: only an
   * error it raises is passed on. `cache` and `next` name the settings cache
   * and the next task id at the call.
   */
  method ProcessSharedProjects(b: Builder, spec: WorkspaceSpec, roots: map<string, string>, newProjectRoot: string,
                               globalIds: seq<TaskId>, projectsTaskIds: seq<TaskId>, packagesTaskIds: seq<TaskId>,
                               ghost cache: Cache, ghost next: nat, ghost shared: seq<TaskId>,
                               ghost prefix: seq<Task>, ghost globalTasks: seq<Task>)
    returns (failed: Option<BuildError>)
    requires b.disp.Valid() && b.disp.Issued(shared)
    requires b.resolver.cache == cache && b.disp.count == next && shared == globalIds + projectsTaskIds + packagesTaskIds
    requires b.disp.log == prefix + globalTasks
    modifies b.disp, b.resolver
    ensures b.disp.Valid()
    ensures RunEnded(ProjectsAfter(globalTasks, WorkspaceProjectsRun(spec, roots, newProjectRoot, cache, b.parse, shared, next)),
                     failed, b.resolver.cache, prefix, b.disp.log)
  {
    ghost var jobs := ProjectJobs(spec.projects, spec.settings, roots, newProjectRoot);
    var list := new IdList(globalIds + projectsTaskIds + packagesTaskIds);
    var projectIds := ProcessProjects(b, spec.projects, spec.settings, roots, newProjectRoot, list);
    if projectIds.Err? {
      ProjectsRunFailed(jobs, cache, b.parse, shared, next, projectIds.error, b.resolver.cache);
      return Some(projectIds.error);
    }
    ProjectsRunWalked(jobs, cache, b.parse, shared, next, prefix + globalTasks, b.resolver.cache, list.items, projectIds.value,
                      b.disp.count, b.disp.log);
    AppendAssoc(prefix, globalTasks, ProjectsRun(jobs, cache, b.parse, shared, next).result.value);
    return None;
  }

  /**
   * The first half of `executeWorkspaceSchematics`: `checkCollections`, then
   * `addCollectionsToAngularJson`, then `ensureProjectExists` on the
   * `checkPackages` id if there is one. Returns that id as a list, and the
   * list `ensureProjectExists` returns.
   */
  method SubmitSetup(b: Builder, spec: WorkspaceSpec, installCollection: Value, addCollections: Value, picked: seq<Package>)
    returns (packagesTaskIds: seq<TaskId>, projectsTaskIds: seq<TaskId>)
    requires b.disp.Valid()
    modifies b.disp
    ensures var setup := SetupTasks(spec, installCollection, addCollections, picked);
      && b.disp.Valid() && b.disp.count == old(b.disp.count) + |setup|
      && b.disp.log == old(b.disp.log) + setup
      && packagesTaskIds == PackagesTaskIds(old(b.disp.count), setup)
      && projectsTaskIds == ProjectsTaskIds(old(b.disp.count), setup)
      && b.disp.Issued(packagesTaskIds) && b.disp.Issued(projectsTaskIds)
  {
    var taskId := CheckCollections(b, spec.settings, installCollection, addCollections, picked);
    var addTaskId := AddCollectionsToAngularJson(b, spec.settings);
    packagesTaskIds := if taskId.Some? then [taskId.value] else [];
    projectsTaskIds := EnsureProjectExists(b, spec.projects, packagesTaskIds);
  }

  /** The run ended as `s` says: with its error, its cache and, without error, its tasks after `prefix` in the log. */
  ghost predicate RunEnded(s: RunOutcome, failed: Option<BuildError>, cacheNow: Cache, prefix: seq<Task>, logNow: seq<Task>)
  {
    && failed == s.failed && cacheNow == s.cache
    && (s.failed.None? ==> logNow == prefix + s.tasks)
  }

  /**
   * The second half of `executeWorkspaceSchematics`: the top-level
   * schematics on `projectsTaskIds`, then every project's structures on the
   * shared list of the top-level schematics' ids, `projectsTaskIds` and
   * `packagesTaskIds` (the `checkPackages` id, if any). `cache` and `start`
   * name the settings cache and the next task id at the call.
   */
  method RunSchematics(b: Builder, spec: WorkspaceSpec, name: Option<string>, roots: map<string, string>,
                       newProjectRoot: string, projectsTaskIds: seq<TaskId>, packagesTaskIds: seq<TaskId>,
                       ghost g: BuildRun)
    returns (failed: Option<BuildError>)
    requires b.disp.Valid() && b.disp.Issued(projectsTaskIds) && b.disp.Issued(packagesTaskIds)
    requires g == GlobalRun(spec.schematics, spec.settings, name, b.resolver.cache, b.parse, projectsTaskIds)
    modifies b.disp, b.resolver
    ensures b.disp.Valid()
    ensures RunEnded(SchematicsAfter(g, spec, roots, newProjectRoot, b.parse, old(b.disp.count), projectsTaskIds, packagesTaskIds),
                     failed, b.resolver.cache, old(b.disp.log), b.disp.log)
  {
    ghost var start, prefix := b.disp.count, b.disp.log;
    assert Below(projectsTaskIds, start) && Below(packagesTaskIds, start);
    var global := ExecuteGlobalSchematicRules(b, spec.schematics, projectsTaskIds, name, spec.settings);
    if global.Err? {
      GlobalStops(g, spec, roots, newProjectRoot, b.parse, start, projectsTaskIds, packagesTaskIds);
      return Some(global.error);
    }
    failed := RunAfterGlobal(b, spec, roots, newProjectRoot, global.value, projectsTaskIds, packagesTaskIds,
                             start, projectsTaskIds, packagesTaskIds, prefix, g);
  }

  /**
   * The projects' structures after the top-level schematics `g` ran without
   * error and submitted the ids `globalIds`.
   */
  method RunAfterGlobal(b: Builder, spec: WorkspaceSpec, roots: map<string, string>, newProjectRoot: string,
                        globalIds: seq<TaskId>, projectsTaskIds: seq<TaskId>, packagesTaskIds: seq<TaskId>,
                        ghost start: nat, ghost parents: seq<TaskId>, ghost packages: seq<TaskId>,
                        ghost prefix: seq<Task>, ghost g: BuildRun)
    returns (failed: Option<BuildError>)
    requires g.result.Ok? && globalIds == Range(start, start + |g.result.value|)
    requires b.disp.Valid() && b.disp.Issued(projectsTaskIds) && b.disp.Issued(packagesTaskIds)
    requires parents == projectsTaskIds && packages == packagesTaskIds && Below(parents, start) && Below(packages, start)
    requires b.resolver.cache == g.cache && b.disp.count == start + |g.result.value|
    requires b.disp.log == prefix + g.result.value
    modifies b.disp, b.resolver
    ensures b.disp.Valid()
    ensures RunEnded(SchematicsAfter(g, spec, roots, newProjectRoot, b.parse, start, parents, packages),
                     failed, b.resolver.cache, prefix, b.disp.log)
  {
    SharedBelow(start, |g.result.value|, parents, packages);
    failed := ProcessSharedProjects(b, spec, roots, newProjectRoot, globalIds, projectsTaskIds, packagesTaskIds,
                                    g.cache, start + |g.result.value|, SharedList(start, |g.result.value|, parents, packages),
                                    prefix, g.result.value);
    GlobalGoesOn(g, spec, roots, newProjectRoot, b.parse, start, parents, packages);
  }

  /** An error of the top-level schematics ends the run. */
  lemma GlobalStops(g: BuildRun, spec: WorkspaceSpec, roots: map<string, string>, newProjectRoot: string,
                    parse: (string, string) -> (string, string), start: nat, parents: seq<TaskId>, packages: seq<TaskId>)
    requires g.result.Err?
    ensures SchematicsAfter(g, spec, roots, newProjectRoot, parse, start, parents, packages)
         == RunOutcome(Some(g.result.error), [], g.cache)
  {
  }

  /** Without an error, the projects' structures run next, on the shared list. */
  lemma GlobalGoesOn(g: BuildRun, spec: WorkspaceSpec, roots: map<string, string>, newProjectRoot: string,
                     parse: (string, string) -> (string, string), start: nat, parents: seq<TaskId>, packages: seq<TaskId>)
    requires g.result.Ok?
    ensures SchematicsAfter(g, spec, roots, newProjectRoot, parse, start, parents, packages)
         == ProjectsAfter(g.result.value, WorkspaceProjectsRun(spec, roots, newProjectRoot, g.cache, parse,
                                                               SharedList(start, |g.result.value|, parents, packages),
                                                               start + |g.result.value|))
  {
  }

  /** A run that ended after `prefix + setup` ends, with `setup` in front of its tasks, after `prefix`. */
  lemma EndedAfterSetup(s: RunOutcome, setup: seq<Task>, failed: Option<BuildError>, cacheNow: Cache,
                        prefix: seq<Task>, logNow: seq<Task>)
    requires RunEnded(s, failed, cacheNow, prefix + setup, logNow)
    ensures RunEnded(RunOutcome(s.failed, setup + s.tasks, s.cache), failed, cacheNow, prefix, logNow)
  {
    if s.failed.None? {
      AppendAssoc(prefix, setup, s.tasks);
    }
  }

  /** Concatenation is associative. */
  lemma AppendAssoc<T>(a: seq<T>, b: seq<T>, c: seq<T>)
    ensures a + (b + c) == a + b + c
  {
  }

  /**
   * `executeWorkspaceSchematics` on the parsed spec: fails without a truthy
   * `$schema`; otherwise submits the setup tasks, then runs the top-level
   * schematics and every project's structures. An error raised by a step
   * ends the run with that error.
   */
  method ExecuteWorkspaceSchematics(b: Builder, spec: WorkspaceSpec, name: Option<string>, installCollection: Value,
                                    addCollections: Value, picked: seq<Package>, roots: map<string, string>,
                                    newProjectRoot: string)
    returns (failed: Option<BuildError>)
    requires b.disp.Valid()
    modifies b.disp, b.resolver
    ensures b.disp.Valid()
    ensures RunEnded(WorkspaceRun(spec, name, installCollection, addCollections, picked, roots, newProjectRoot,
                                  old(b.resolver.cache), b.parse, old(b.disp.count)),
                     failed, b.resolver.cache, old(b.disp.log), b.disp.log)
  {
    if !IsTruthy(spec.schema) {
      return Some(MissingSchema);
    }
    failed := RunWorkspace(b, spec, name, installCollection, addCollections, picked, roots, newProjectRoot);
  }

  /** `executeWorkspaceSchematics` past the `$schema` check: the setup tasks, then the schematics. */
  method RunWorkspace(b: Builder, spec: WorkspaceSpec, name: Option<string>, installCollection: Value,
                      addCollections: Value, picked: seq<Package>, roots: map<string, string>, newProjectRoot: string)
    returns (failed: Option<BuildError>)
    requires b.disp.Valid()
    modifies b.disp, b.resolver
    ensures b.disp.Valid()
    ensures RunEnded(RunAfterSetup(SetupTasks(spec, installCollection, addCollections, picked), spec, name, roots,
                                   newProjectRoot, old(b.resolver.cache), b.parse, old(b.disp.count)),
                     failed, b.resolver.cache, old(b.disp.log), b.disp.log)
  {
    ghost var cache0, count0, log0 := b.resolver.cache, b.disp.count, b.disp.log;
    var packagesTaskIds, projectsTaskIds := SubmitSetup(b, spec, installCollection, addCollections, picked);
    ghost var setup := SetupTasks(spec, installCollection, addCollections, picked);
    ghost var start, shown := b.disp.count, b.disp.log;
    ghost var g := GlobalRun(spec.schematics, spec.settings, name, b.resolver.cache, b.parse, projectsTaskIds);
    failed := RunSchematics(b, spec, name, roots, newProjectRoot, projectsTaskIds, packagesTaskIds, g);
    SetupRunEnded(setup, spec, name, roots, newProjectRoot, cache0, b.parse, count0, g, start, projectsTaskIds,
                  packagesTaskIds, failed, b.resolver.cache, log0, shown, b.disp.log);
  }

  /** After the setup tasks, the whole run ends as its schematics end it, with the setup tasks in front. */
  lemma SetupRunEnded(setup: seq<Task>, spec: WorkspaceSpec, name: Option<string>, roots: map<string, string>,
                      newProjectRoot: string, cache: Cache, parse: (string, string) -> (string, string), next: nat,
                      g: BuildRun, start: nat, parents: seq<TaskId>, packages: seq<TaskId>,
                      failed: Option<BuildError>, cacheNow: Cache, prefix: seq<Task>, shown: seq<Task>, logNow: seq<Task>)
    requires |setup| >= 2 && start == next + |setup| && shown == prefix + setup
    requires parents == ProjectsTaskIds(next, setup) && packages == PackagesTaskIds(next, setup)
    requires g == GlobalRun(spec.schematics, spec.settings, name, cache, parse, parents)
    requires RunEnded(SchematicsAfter(g, spec, roots, newProjectRoot, parse, start, parents, packages),
                      failed, cacheNow, shown, logNow)
    ensures RunEnded(RunAfterSetup(setup, spec, name, roots, newProjectRoot, cache, parse, next), failed, cacheNow, prefix, logNow)
  {
    EndedAfterSetup(SchematicsAfter(GlobalRun(spec.schematics, spec.settings, name, cache, parse, ProjectsTaskIds(next, setup)),
                                    spec, roots, newProjectRoot, parse, next + |setup|,
                                    ProjectsTaskIds(next, setup), PackagesTaskIds(next, setup)),
                    setup, failed, cacheNow, prefix, logNow);
  }
}
