/**
 * The workspace-level phases of the build schematic (build/index.ts): the
 * tasks submitted before the walk (`checkCollections`,
 * `addCollectionsToAngularJson`, `ensureProjectExists`), and the walk of
 * `processProjects`, which runs every structure of every project with one
 * shared id list.
 */
module Workspace {
  import opened Common
  import opened Resolver
  import opened Structure
  import opened Schematic
  import opened Emission
  import opened Dispatch

  /** `Object.keys` of an object given as its entries. */
  function Keys<V>(entries: seq<(string, V)>): (r: seq<string>)
    ensures |r| == |entries| && forall i :: 0 <= i < |r| ==> r[i] == entries[i].0
  {
    seq(|entries|, i requires 0 <= i < |entries| => entries[i].0)
  }

  /** The value of `key` in an object given as its entries, `undefined` when it has none. */
  function Field(entries: Entries, key: string): (v: Value)
    ensures v != Undefined ==> exists i :: 0 <= i < |entries| && entries[i] == (key, v)
    ensures (forall i :: 0 <= i < |entries| ==> entries[i].0 != key) ==> v == Undefined
  {
    if entries == [] then Undefined
    else
      var n := |entries| - 1;
      if entries[n].0 == key then entries[n].1 else Field(entries[..n], key)
  }

  /** The `{packageName, version}` entry of a collection; the version only when it is truthy. */
  function PackageOf(collection: string, content: Entries): Package
  {
    var version := Field(content, "version");
    Package(collection, if IsTruthy(version) then Some(version) else None)
  }

  /** One package entry per collection of the settings, in key order. */
  function PackagesOf(settings: Layer): (r: seq<Package>)
    ensures |r| == |settings|
  {
    seq(|settings|, i requires 0 <= i < |settings| => PackageOf(settings[i].0, settings[i].1))
  }

  /**
   * The `checkPackages` task, submitted only when `installCollection` is
   * truthy: with every package when `addCollections` is truthy, and with the
   * packages picked at the prompt otherwise.
   */
  function CheckPackagesTasks(settings: Layer, installCollection: Value, addCollections: Value,
                              picked: seq<Package>): (r: seq<Task>)
    ensures |r| == (if IsTruthy(installCollection) then 1 else 0)
  {
    if IsTruthy(installCollection) then
      [Task(None, "checkPackages", CheckPackagesOptions(if IsTruthy(addCollections) then PackagesOf(settings) else picked), [])]
    else []
  }

  /** The `AddCollectionsAngularJson` task: every collection name of the settings, no dependencies. */
  function AddCollectionsTask(settings: Layer): Task
  {
    Task(None, "AddCollectionsAngularJson", AddCollectionsOptions(Keys(settings)), [])
  }

  /** The `checkProjects` task: the projects and their names, no dependencies. */
  function CheckProjectsTask(projects: seq<(string, Project)>): Task
  {
    Task(None, "checkProjects", CheckProjectsOptions(projects, Keys(projects)), [])
  }

  /** The workspace's top-level schematics, run as schematic nodes. */
  function AsSchematics(schematics: seq<(string, Invocation)>): (r: seq<(string, Node)>)
    ensures |r| == |schematics|
    ensures forall i :: 0 <= i < |r| ==> r[i] == (schematics[i].0, Schematic(schematics[i].1))
  {
    seq(|schematics|, i requires 0 <= i < |schematics| => (schematics[i].0, Schematic(schematics[i].1)))
  }

  /** One `processStructure` call of `processProjects`. */
  datatype Job = Job(path: string, layers: Layers, node: Node, projectName: string)

  /** `project?.root ?? newProjectRoot + "/" + projectName`, the workspace given as project name to root. */
  function ProjectPath(name: string, roots: map<string, string>, newProjectRoot: string): string
  {
    if name in roots then roots[name] else newProjectRoot + "/" + name
  }

  /** The global settings, and the project's own `settings` or `{}`. */
  function ProjectLayers(settings: Layer, project: Project): Layers
  {
    Layers(Some(settings), Some(if project.settings.Some? then project.settings.value else []))
  }

  /** Each structure of a project, as the one-key object `{[key]: value}` walked at the project's path. */
  function StructureJobs(path: string, layers: Layers, name: string, structures: seq<(string, Node)>): (r: seq<Job>)
    ensures |r| == |structures|
  {
    seq(|structures|, i requires 0 <= i < |structures| => Job(path, layers, Folder([structures[i]]), name))
  }

  /** The `processStructure` calls of `processProjects`, project by project, in key order. */
  function ProjectJobs(projects: seq<(string, Project)>, settings: Layer, roots: map<string, string>,
                       newProjectRoot: string): seq<Job>
  {
    if projects == [] then []
    else
      var n := |projects| - 1;
      var (name, project) := projects[n];
      ProjectJobs(projects[..n], settings, roots, newProjectRoot)
        + StructureJobs(ProjectPath(name, roots, newProjectRoot), ProjectLayers(settings, project), name, project.structures)
  }

  /** The calls of the jobs in turn, each job's lookups seeing the cache the previous ones left; stops at the first error. */
  function EmitJobs(jobs: seq<Job>, cache: Cache, parse: (string, string) -> (string, string)): Outcome
  {
    if jobs == [] then Outcome(Ok([]), cache)
    else
      var n := |jobs| - 1;
      var before := EmitJobs(jobs[..n], cache, parse);
      if before.calls.Err? then before
      else
        var j := jobs[n];
        var e := EmitLevel(j.node, j.path, before.cache, parse, j.layers, Some(j.projectName));
        Outcome(if e.calls.Err? then e.calls else Ok(before.calls.value + e.calls.value), e.cache)
  }

  /**
   * The walk of the jobs in turn, all on one shared list: `parent` is that
   * list at the end, `pushed` what `processProjects` collected (the shared
   * list as it stood after each job), `deps` the dependencies of each task.
   */
  datatype JobsWalk = JobsWalk(parent: seq<TaskId>, next: nat, pushed: seq<TaskId>, deps: seq<seq<TaskId>>)

  /** The walk of the jobs one by one, each walking its node on the parent list the ones before it left. */
  function WalkJobs(jobs: seq<Job>, parent: seq<TaskId>, next: nat): JobsWalk
  {
    if jobs == [] then JobsWalk(parent, next, [], [])
    else
      var n := |jobs| - 1;
      var before := WalkJobs(jobs[..n], parent, next);
      var w := WalkLevel(jobs[n].node, before.parent, before.next);
      JobsWalk(w.ids, w.next, before.pushed + w.ids, before.deps + w.deps)
  }

  /**
   * The jobs ran without error from the cache `cache`, the shared list
   * `parent`, the id `next` and the log `log`: the cache, the shared list,
   * the ids collected, the next id and the log are what the emission and the
   * walk of the jobs give.
   */
  ghost predicate JobsWalked(jobs: seq<Job>, cache: Cache, parse: (string, string) -> (string, string),
                             parent: seq<TaskId>, next: nat, log: seq<Task>,
                             cacheNow: Cache, parentNow: seq<TaskId>, pushed: seq<TaskId>, count: nat, logNow: seq<Task>)
  {
    var e := EmitJobs(jobs, cache, parse);
    var w := WalkJobs(jobs, parent, next);
    && e.calls.Ok? && cacheNow == e.cache && |e.calls.value| == |w.deps|
    && parentNow == w.parent && pushed == w.pushed && count == w.next
    && logNow == log + Tasks(e.calls.value, w.deps)
  }

  /** The jobs raised `error`, leaving the cache `cacheNow`. */
  ghost predicate JobsFailed(jobs: seq<Job>, cache: Cache, parse: (string, string) -> (string, string),
                             error: BuildError, cacheNow: Cache)
  {
    var e := EmitJobs(jobs, cache, parse);
    e.calls == Err(error) && cacheNow == e.cache
  }

  /** Walking one more job extends the emission and the walk of the jobs before it. */
  lemma JobStep(jobs: seq<Job>, job: Job, cache: Cache, parse: (string, string) -> (string, string),
                parent: seq<TaskId>, next: nat)
    ensures var e := EmitJobs(jobs, cache, parse);
      var c := EmitLevel(job.node, job.path, e.cache, parse, job.layers, Some(job.projectName));
      EmitJobs(jobs + [job], cache, parse)
        == if e.calls.Err? then e
           else Outcome(if c.calls.Err? then c.calls else Ok(e.calls.value + c.calls.value), c.cache)
    ensures var w := WalkJobs(jobs, parent, next);
      var l := WalkLevel(job.node, w.parent, w.next);
      WalkJobs(jobs + [job], parent, next) == JobsWalk(l.ids, l.next, w.pushed + l.ids, w.deps + l.deps)
  {
    assert (jobs + [job])[..|jobs|] == jobs;
  }

  /** A job after an error is not run. */
  lemma EmitJobsAfterError(before: seq<Job>, job: Job, cache: Cache, parse: (string, string) -> (string, string))
    requires EmitJobs(before, cache, parse).calls.Err?
    ensures EmitJobs(before + [job], cache, parse) == EmitJobs(before, cache, parse)
  {
    assert (before + [job])[..|before|] == before;
  }

  /** Once the jobs `done` raise an error, the jobs after them are not run. */
  lemma {:induction false} JobsStopAtError(done: seq<Job>, rest: seq<Job>, cache: Cache, parse: (string, string) -> (string, string))
    requires EmitJobs(done, cache, parse).calls.Err?
    ensures EmitJobs(done + rest, cache, parse) == EmitJobs(done, cache, parse)
    decreases |rest|
  {
    if rest == [] {
      assert done + rest == done;
    } else {
      var n := |rest| - 1;
      JobsStopAtError(done, rest[..n], cache, parse);
      EmitJobsAfterError(done + rest[..n], rest[n], cache, parse);
      assert done + rest[..n] + [rest[n]] == done + rest;
    }
  }

  /** One more project appends its structures' jobs. */
  lemma ProjectJobsStep(projects: seq<(string, Project)>, i: nat, settings: Layer, roots: map<string, string>,
                        newProjectRoot: string)
    requires i < |projects|
    ensures ProjectJobs(projects[..i + 1], settings, roots, newProjectRoot)
         == ProjectJobs(projects[..i], settings, roots, newProjectRoot)
            + StructureJobs(ProjectPath(projects[i].0, roots, newProjectRoot), ProjectLayers(settings, projects[i].1),
                            projects[i].0, projects[i].1.structures)
  {
    assert projects[..i + 1][..i] == projects[..i];
  }

  /** The jobs of the first `k` projects come first among the jobs of all of them. */
  lemma {:induction false} ProjectJobsPrefix(projects: seq<(string, Project)>, k: nat, settings: Layer,
                                             roots: map<string, string>, newProjectRoot: string)
    requires k <= |projects|
    ensures ProjectJobs(projects[..k], settings, roots, newProjectRoot) <= ProjectJobs(projects, settings, roots, newProjectRoot)
    decreases |projects| - k
  {
    if k < |projects| {
      var n := |projects| - 1;
      assert projects[..n][..k] == projects[..k];
      ProjectJobsPrefix(projects[..n], k, settings, roots, newProjectRoot);
    } else {
      assert projects[..k] == projects;
    }
  }

  /** A run of the jobs that raises no error submits one task per dependency list of their walk. */
  lemma {:induction false} EmitJobsCounts(jobs: seq<Job>, cache: Cache, parse: (string, string) -> (string, string),
                                          parent: seq<TaskId>, next: nat)
    ensures var e := EmitJobs(jobs, cache, parse);
      e.calls.Ok? ==> |e.calls.value| == |WalkJobs(jobs, parent, next).deps|
    decreases |jobs|
  {
    if jobs != [] {
      var n := |jobs| - 1;
      EmitJobsCounts(jobs[..n], cache, parse, parent, next);
      var before := EmitJobs(jobs[..n], cache, parse);
      var w := WalkJobs(jobs[..n], parent, next);
      var j := jobs[n];
      EmitCountsTasks(j.node, j.path, before.cache, parse, j.layers, Some(j.projectName));
      WalkCountsTasks(j.node, w.parent, w.next);
    }
  }

  /**
   * The shared list only grows, ids are handed out consecutively, and every
   * id collected was handed out by the end.
   */
  lemma {:induction false} WalkJobsExtendsParent(jobs: seq<Job>, parent: seq<TaskId>, next: nat)
    requires Below(parent, next)
    ensures var w := WalkJobs(jobs, parent, next);
      && parent <= w.parent && Below(w.parent, w.next) && Below(w.pushed, w.next)
      && w.next == next + |w.deps|
    decreases |jobs|
  {
    if jobs != [] {
      var n := |jobs| - 1;
      WalkJobsExtendsParent(jobs[..n], parent, next);
      var before := WalkJobs(jobs[..n], parent, next);
      WalkExtendsParent(jobs[n].node, before.parent, before.next);
      WalkCountsTasks(jobs[n].node, before.parent, before.next);
      var w := WalkLevel(jobs[n].node, before.parent, before.next);
      BelowMonotone(before.pushed, before.next, w.next);
      BelowAppend(before.pushed, w.ids, w.next);
    }
  }

  /** Every task of the projects' walk depends only on tasks submitted before it. */
  lemma {:induction false} WalkJobsDependsBackwards(jobs: seq<Job>, parent: seq<TaskId>, next: nat)
    requires Below(parent, next)
    ensures DependsBackwards(WalkJobs(jobs, parent, next).deps, next)
    decreases |jobs|
  {
    if jobs != [] {
      var n := |jobs| - 1;
      WalkJobsDependsBackwards(jobs[..n], parent, next);
      WalkJobsExtendsParent(jobs[..n], parent, next);
      var before := WalkJobs(jobs[..n], parent, next);
      WalkDependsBackwards(jobs[n].node, before.parent, before.next);
      DependsBackwardsAppend(before.deps, WalkLevel(jobs[n].node, before.parent, before.next).deps, next);
    }
  }

  /** Every task of the projects' walk waits for every id of the list the walk starts from. */
  lemma {:induction false} WalkJobsWaitFor(jobs: seq<Job>, parent: seq<TaskId>, next: nat)
    requires Below(parent, next)
    ensures WaitFor(WalkJobs(jobs, parent, next).deps, parent)
    decreases |jobs|
  {
    if jobs != [] {
      var n := |jobs| - 1;
      WalkJobsWaitFor(jobs[..n], parent, next);
      WalkJobsExtendsParent(jobs[..n], parent, next);
      var before := WalkJobs(jobs[..n], parent, next);
      WalkWaitsForParent(jobs[n].node, before.parent, before.next);
      var w := WalkLevel(jobs[n].node, before.parent, before.next);
      assert forall d :: d in parent ==> d in before.parent;
      WaitForPart(w.deps, before.parent, parent);
      WaitForAppend(before.deps, w.deps, parent);
    }
  }

  /** The tasks submitted before any schematic: `checkPackages` (maybe), `AddCollectionsAngularJson`, `checkProjects`. */
  function SetupTasks(spec: WorkspaceSpec, installCollection: Value, addCollections: Value, picked: seq<Package>): (r: seq<Task>)
    ensures |r| == 2 + |CheckPackagesTasks(spec.settings, installCollection, addCollections, picked)|
  {
    CheckPackagesTasks(spec.settings, installCollection, addCollections, picked)
      + [AddCollectionsTask(spec.settings), CheckProjectsTask(spec.projects)]
  }

  /** What a stage of the run submits, or the error that stops it, and the memo cache afterwards. */
  datatype BuildRun = BuildRun(result: Result<seq<Task>>, cache: Cache)

  /** The `checkPackages` id, when that task was submitted first from `next`. */
  function PackagesTaskIds(next: nat, setup: seq<Task>): (r: seq<TaskId>)
    requires |setup| >= 2
    ensures |r| == |setup| - 2
  {
    Range(next, next + |setup| - 2)
  }

  /** What `ensureProjectExists` returns: the `checkPackages` id if any, then the `checkProjects` id. */
  function ProjectsTaskIds(next: nat, setup: seq<Task>): (r: seq<TaskId>)
    requires |setup| >= 2
  {
    PackagesTaskIds(next, setup) + [next + |setup| - 1]
  }

  /**
   * The list `processProjects` shares: the `globals` top-level schematics'
   * ids from `start` on, the `ensureProjectExists` ids and the
   * `checkPackages` id once more.
   */
  function SharedList(start: nat, globals: nat, parents: seq<TaskId>, packages: seq<TaskId>): seq<TaskId>
  {
    Range(start, start + globals) + parents + packages
  }

  /**
   * The workspace's top-level schematics, run at `/` with the global settings
   * alone, each task waiting for `parents`.
   */
  function GlobalRun(schematics: seq<(string, Invocation)>, settings: Layer, name: Option<string>, cache: Cache,
                     parse: (string, string) -> (string, string), parents: seq<TaskId>): BuildRun
  {
    var e := EmitSchematics(AsSchematics(schematics), cache, parse, Layers(Some(settings), None), "/", name);
    if e.calls.Err? then BuildRun(Err(e.calls.error), e.cache)
    else BuildRun(Ok(Tasks(e.calls.value, Repeat(parents, |e.calls.value|))), e.cache)
  }

  /**
   * The projects' structures, from the cache the top-level schematics leave,
   * with ids from `next` on and the shared list starting as `shared`.
   */
  function ProjectsRun(jobs: seq<Job>, cache: Cache, parse: (string, string) -> (string, string),
                       shared: seq<TaskId>, next: nat): BuildRun
  {
    var e := EmitJobs(jobs, cache, parse);
    if e.calls.Err? then BuildRun(Err(e.calls.error), e.cache)
    else
      EmitJobsCounts(jobs, cache, parse, shared, next);
      BuildRun(Ok(Tasks(e.calls.value, WalkJobs(jobs, shared, next).deps)), e.cache)
  }

  /** The structures of the workspace's projects, as `ProjectsRun` runs them. */
  function WorkspaceProjectsRun(spec: WorkspaceSpec, roots: map<string, string>, newProjectRoot: string, cache: Cache,
                                parse: (string, string) -> (string, string), shared: seq<TaskId>, next: nat): BuildRun
  {
    ProjectsRun(ProjectJobs(spec.projects, spec.settings, roots, newProjectRoot), cache, parse, shared, next)
  }

  /** Every task of the projects' structures waits for every id of the shared list it starts from. */
  lemma ProjectsRunWaitFor(jobs: seq<Job>, cache: Cache, parse: (string, string) -> (string, string),
                           shared: seq<TaskId>, next: nat)
    requires Below(shared, next)
    requires ProjectsRun(jobs, cache, parse, shared, next).result.Ok?
    ensures var log := ProjectsRun(jobs, cache, parse, shared, next).result.value;
      forall i :: 0 <= i < |log| ==> forall d :: d in shared ==> d in log[i].deps
  {
    WalkJobsWaitFor(jobs, shared, next);
    var e := EmitJobs(jobs, cache, parse);
    var w := WalkJobs(jobs, shared, next);
    var log := ProjectsRun(jobs, cache, parse, shared, next).result.value;
    EmitJobsCounts(jobs, cache, parse, shared, next);
    assert log == Tasks(e.calls.value, w.deps);
    forall i | 0 <= i < |log|
      ensures forall d :: d in shared ==> d in log[i].deps
    {
      assert log[i].deps == w.deps[i];
    }
  }

  /** How a run ends: the error that stops it, if any; the tasks it submits; the memo cache afterwards. */
  datatype RunOutcome = RunOutcome(failed: Option<BuildError>, tasks: seq<Task>, cache: Cache)

  /**
   * The run once the top-level schematics, each waiting for `parents`, gave
   * `g` from the id `start` on: the projects' structures on the shared list
   * of those ids, `parents` and `packages`. The first error stops the run.
   */
  function SchematicsAfter(g: BuildRun, spec: WorkspaceSpec, roots: map<string, string>, newProjectRoot: string,
                           parse: (string, string) -> (string, string), start: nat,
                           parents: seq<TaskId>, packages: seq<TaskId>): RunOutcome
  {
    if g.result.Err? then RunOutcome(Some(g.result.error), [], g.cache)
    else
      var globals := |g.result.value|;
      ProjectsAfter(g.result.value, WorkspaceProjectsRun(spec, roots, newProjectRoot, g.cache, parse,
                                                         SharedList(start, globals, parents, packages), start + globals))
  }

  /** The run once the top-level schematics submitted `globalTasks` and the projects' structures gave `p`. */
  function ProjectsAfter(globalTasks: seq<Task>, p: BuildRun): RunOutcome
  {
    if p.result.Err? then RunOutcome(Some(p.result.error), [], p.cache)
    else RunOutcome(None, globalTasks + p.result.value, p.cache)
  }

  /**
   * A whole run with ids from `next` on: without a truthy `$schema` it fails
   * at once; otherwise the setup tasks come first, then the schematics.
   */
  function WorkspaceRun(spec: WorkspaceSpec, name: Option<string>, installCollection: Value, addCollections: Value,
                        picked: seq<Package>, roots: map<string, string>, newProjectRoot: string,
                        cache: Cache, parse: (string, string) -> (string, string), next: nat): RunOutcome
  {
    if !IsTruthy(spec.schema) then RunOutcome(Some(MissingSchema), [], cache)
    else
      RunAfterSetup(SetupTasks(spec, installCollection, addCollections, picked), spec, name, roots, newProjectRoot,
                    cache, parse, next)
  }

  /** A run once the setup tasks `setup` took the ids from `next` on: they come first, then the schematics. */
  function RunAfterSetup(setup: seq<Task>, spec: WorkspaceSpec, name: Option<string>, roots: map<string, string>,
                         newProjectRoot: string, cache: Cache, parse: (string, string) -> (string, string), next: nat): RunOutcome
    requires |setup| >= 2
  {
    var g := GlobalRun(spec.schematics, spec.settings, name, cache, parse, ProjectsTaskIds(next, setup));
    var s := SchematicsAfter(g, spec, roots, newProjectRoot, parse, next + |setup|,
                             ProjectsTaskIds(next, setup), PackagesTaskIds(next, setup));
    RunOutcome(s.failed, setup + s.tasks, s.cache)
  }

  /**
   * The order a run sets up, ids handed out from `next`: the setup tasks
   * wait for nothing; every schematic task waits for the `checkProjects`
   * task and, when there is one, the `checkPackages` task; and every task of
   * a project's structures also waits for every top-level schematic task.
   */
  lemma RunOrder(setup: seq<Task>, globalCalls: seq<Call>, jobs: seq<Job>, cache: Cache,
                 parse: (string, string) -> (string, string), next: nat)
    requires |setup| >= 2 && forall i :: 0 <= i < |setup| ==> setup[i].deps == []
    requires ProjectsRun(jobs, cache, parse, SharedList(next + |setup|, |globalCalls|, ProjectsTaskIds(next, setup), PackagesTaskIds(next, setup)), next + |setup| + |globalCalls|).result.Ok?
    ensures var k := |setup|;
      var log := setup + Tasks(globalCalls, Repeat(ProjectsTaskIds(next, setup), |globalCalls|))
        + ProjectsRun(jobs, cache, parse, SharedList(next + |setup|, |globalCalls|, ProjectsTaskIds(next, setup), PackagesTaskIds(next, setup)), next + k + |globalCalls|).result.value;
      && (forall i :: 0 <= i < k ==> log[i].deps == [])
      && (forall i :: k <= i < |log| ==> next + k - 1 in log[i].deps && (k == 3 ==> next in log[i].deps))
      && (forall i, d :: k + |globalCalls| <= i < |log| && next + k <= d < next + k + |globalCalls| ==> d in log[i].deps)
  {
    var shared := SharedList(next + |setup|, |globalCalls|, ProjectsTaskIds(next, setup), PackagesTaskIds(next, setup));
    var start := next + |setup| + |globalCalls|;
    assert Below(shared, start);
    ProjectsRunWaitFor(jobs, cache, parse, shared, start);
    LogOrder(setup, globalCalls, ProjectsRun(jobs, cache, parse, shared, start).result.value, next);
  }

  /**
   * The order of a run's log, whatever the structures' tasks are, so long as
   * each of them waits for every id of the shared list.
   */
  lemma LogOrder(setup: seq<Task>, globalCalls: seq<Call>, walk: seq<Task>, next: nat)
    requires |setup| >= 2 && forall i :: 0 <= i < |setup| ==> setup[i].deps == []
    requires forall i :: 0 <= i < |walk| ==> forall d ::
      d in SharedList(next + |setup|, |globalCalls|, ProjectsTaskIds(next, setup), PackagesTaskIds(next, setup)) ==> d in walk[i].deps
    ensures var k := |setup|;
      var log := setup + Tasks(globalCalls, Repeat(ProjectsTaskIds(next, setup), |globalCalls|)) + walk;
      && (forall i :: 0 <= i < k ==> log[i].deps == [])
      && (forall i :: k <= i < |log| ==> next + k - 1 in log[i].deps && (k == 3 ==> next in log[i].deps))
      && (forall i, d :: k + |globalCalls| <= i < |log| && next + k <= d < next + k + |globalCalls| ==> d in log[i].deps)
  {
    var k := |setup|;
    var G := |globalCalls|;
    var start := next + k + G;
    var projectsTaskIds := ProjectsTaskIds(next, setup);
    var globalIds := Range(next + k, start);
    var shared := SharedList(next + k, G, projectsTaskIds, PackagesTaskIds(next, setup));
    var globalTasks := Tasks(globalCalls, Repeat(projectsTaskIds, G));
    assert forall i :: 0 <= i < G ==> globalTasks[i].deps == projectsTaskIds;
    OrderOfParts(setup, globalTasks, walk, projectsTaskIds, globalIds, shared);
    var log := setup + globalTasks + walk;
    assert next + k - 1 in projectsTaskIds;
    assert k == 3 ==> next in projectsTaskIds;
    forall i, d | k + G <= i < |log| && next + k <= d < start
      ensures d in log[i].deps
    {
      assert globalIds[d - next - k] == d;
    }
  }

  /**
   * The order of a log made of tasks waiting for nothing, then tasks
   * waiting for `projectsTaskIds`, then tasks waiting for all of `shared`.
   */
  lemma OrderOfParts(setup: seq<Task>, globalTasks: seq<Task>, walkTasks: seq<Task>,
                     projectsTaskIds: seq<TaskId>, globalIds: seq<TaskId>, shared: seq<TaskId>)
    requires forall i :: 0 <= i < |setup| ==> setup[i].deps == []
    requires forall i :: 0 <= i < |globalTasks| ==> globalTasks[i].deps == projectsTaskIds
    requires forall i :: 0 <= i < |walkTasks| ==> forall d :: d in shared ==> d in walkTasks[i].deps
    requires forall d :: d in projectsTaskIds ==> d in shared
    requires forall d :: d in globalIds ==> d in shared
    ensures var log := setup + globalTasks + walkTasks;
      && log[..|setup|] == setup
      && (forall i :: 0 <= i < |setup| ==> log[i].deps == [])
      && (forall i :: |setup| <= i < |log| ==> forall d :: d in projectsTaskIds ==> d in log[i].deps)
      && (forall i :: |setup| + |globalTasks| <= i < |log| ==> forall d :: d in globalIds ==> d in log[i].deps)
  {
    var log := setup + globalTasks + walkTasks;
    forall i | |setup| <= i < |log|
      ensures forall d :: d in projectsTaskIds ==> d in log[i].deps
    {
      if i < |setup| + |globalTasks| {
        assert log[i] == globalTasks[i - |setup|];
      } else {
        assert log[i] == walkTasks[i - |setup| - |globalTasks|];
      }
    }
  }

  /** The shared list of a run holds only ids handed out before the projects' structures start. */
  lemma SharedBelow(start: nat, globals: nat, parents: seq<TaskId>, packages: seq<TaskId>)
    requires Below(parents, start) && Below(packages, start)
    ensures Below(SharedList(start, globals, parents, packages), start + globals)
  {
    BelowMonotone(parents, start, start + globals);
    BelowMonotone(packages, start, start + globals);
    var r := Range(start, start + globals);
    assert Below(r, start + globals) by {
      forall d | d in r
        ensures d < start + globals
      {
        var i :| 0 <= i < |r| && r[i] == d;
      }
    }
    BelowAppend(r, parents, start + globals);
    BelowAppend(r + parents, packages, start + globals);
  }

  /** A bound on the ids holds for any larger bound. */
  lemma BelowMonotone(ids: seq<TaskId>, lo: nat, hi: nat)
    requires Below(ids, lo) && lo <= hi
    ensures Below(ids, hi)
  {
  }

  /** Two lists of ids under the same bound stay under it once joined. */
  lemma BelowAppend(a: seq<TaskId>, b: seq<TaskId>, bound: nat)
    requires Below(a, bound) && Below(b, bound)
    ensures Below(a + b, bound)
  {
  }
}
