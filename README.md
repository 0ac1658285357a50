# Angular-builder build schematic, modelled in Dafny

This project models the core of the `build` schematic of Angular-builder
(`src/ng-generate/build/index.ts`), together with the two small schematics it
schedules that update state: `AddCollectionsAngularJson` and `checkProjects`.

The build schematic reads a workspace spec, `project-structure.json`. The spec
holds:

- `$schema`;
- a global `settings` layer: collection name to schematic name to an `alias`
  and default options;
- `projects`: a `type`, their own `settings` layer, and a tree of folders and
  schematic nodes;
- top-level schematic nodes.

From that spec the schematic builds a graph of `RunSchematicTask`
submissions. It first submits three setup tasks:

- `checkPackages`, optional;
- `AddCollectionsAngularJson`;
- `checkProjects`.

Then it runs every top-level schematic at `/`. Last, it walks every structure
of every project. Each schematic node is resolved against the settings
layers, by alias or by an explicit `collection:schematic` name. Those lookups
are memoised in a settings cache. A resolved node submits one task, or one
task per instance. Each task carries merged options and depends on the ids
the walk has collected so far.

The modules, in dependency order:

| module | file | what it holds |
|---|---|---|
| `Common` | common.dfy | JSON-like values, JavaScript truthiness, the errors the schematic throws, `Option`/`Result`, id ranges |
| `Resolver` | resolver.dfy | `getSchematicSettingsByAliasOrName`. A pure `Lookup` gives its result and the cache afterwards. The `SettingsResolver` class keeps the cache as a field. Like the module-level `settingsCached`, it may already hold hits from an earlier build: a run starts from whatever cache it is given. Its `Resolve` method and the two scan loops are proved against `Lookup`. |
| `Structure` | structure.dfy | The spec tree and `extractStructures`. `WalkLevel` gives the shape of a walk: the id list returned, the next id, and the dependencies of every task. |
| `Dispatch` | dispatch.dfy | The task dispatcher behind `context.addTask`: a class holding a counter and a log of submitted tasks. |
| `Schematic` | schematic.dfy | What `processSchematic`, `executeExternalSchematicRules` and `createExternalSchematicCall` decide for one node: name splitting, selectors, target, merge, options. |
| `Emission` | emission.dfy | The calls a walk submits, in order, stopping at the first error. |
| `Build` | build.dfy | The `Builder` class: the imperative walker, which mutates its id lists in place. It is proved against `Emission` and `Structure`. |
| `Workspace` | workspace.dfy | The setup tasks and the jobs of `processProjects`. `WorkspaceRun` is the whole run as a function. |
| `Run` | run.dfy | `checkCollections`, `addCollectionsToAngularJson`, `ensureProjectExists`, `executeGlobalSchematicRules`, `processProjects` and `executeWorkspaceSchematics`, as methods on a `Builder`. |
| `Duplicates` | dedupe.dfy | `removeDuplicates` |
| `AddCollections` | add_collections.dfy | The `AddCollectionsAngularJson` rule |
| `CheckProjects` | check_projects.dfy | The `checkProjects` rule |

The walker is modelled as written, not as its authors may have meant it:

- `processStructure` pushes the ids its folder children return into the list
  it was given, and returns that very list. So ids repeat:
  `Structure.NestedFoldersRepeatIds`.
- The ids of a leaf folder's own schematics never reach the returned list:
  `Structure.LeafFolderReturnsParent`.
- The project lookup's `collection` is built by an expression that groups as
  `(globalSettings?.collection ?? schematic) ? collectionName : undefined`:
  `Schematic.ProjectSelectorQuirk`.
- `processProjects` shares one list across every structure of every project.
  So every later structure waits for the ids that earlier ones appended.

## Model

All paths are relative to the repository root.

| member | source | states |
|---|---|---|
| `Dispatch.Dispatcher.AddTask` | src/ng-generate/build/index.ts:555-563 | `context.addTask` records the task with its dependencies and returns a fresh id, the number of tasks submitted before. Every recorded task depends only on tasks submitted earlier. |
| `Resolver.SettingsOf` | src/ng-generate/build/index.ts:287 | The settings taken from an entry never hold the `alias` key. |
| `Resolver.Store` | src/ng-generate/build/index.ts:294-295 | Memoising a hit creates the layer's map when it is absent and sets exactly one key of it. Every other layer is unchanged. |
| `Resolver.Lookup` | src/ng-generate/build/index.ts:252-312 | Nothing is found or cached in these cases, all checked before the cache: an absent or empty layer, an empty layer name, or a selector with no alias, name or collection. A memoised `collection:name` hit answers before a memoised alias hit. The cache only grows. It changes only by storing the hit under the alias, or under `collection:name` for a hit with that collection and name. |
| `Resolver.ScanHitKey` | src/ng-generate/build/index.ts:285-307 | A scan hit is keyed by the alias when the alias matched. Otherwise it is keyed by `collection:name`, and its collection and name are the ones asked for. |
| `Resolver.ScanEntriesHitKey` | src/ng-generate/build/index.ts:286-307 | The same, for the entries of one collection. |
| `Resolver.ScanFindsNothing` | src/ng-generate/build/index.ts:285-311 | The scan finds nothing exactly when no entry of any collection matches. |
| `Resolver.ScanEntriesFindsNothing` | src/ng-generate/build/index.ts:286-308 | One collection's entries give no hit exactly when none matches. |
| `Resolver.ScanFindsLastMatch` | src/ng-generate/build/index.ts:285-309 | A hit is the last-declared matching entry: the last match of the last collection that has one. |
| `Resolver.ScanEntriesFindsLast` | src/ng-generate/build/index.ts:286-308 | Within one collection, a hit is the last matching entry. |
| `Resolver.LookupIsMemoised` | src/ng-generate/build/index.ts:274-284 | Repeating a lookup returns the same result and leaves the cache as the first lookup left it. |
| `Resolver.LookupDropsAlias` | src/ng-generate/build/index.ts:287-302 | A lookup never returns or caches settings holding `alias`. |
| `Resolver.SettingsResolver.Resolve` | src/ng-generate/build/index.ts:252-312 | The imperative lookup on the cache field returns what `Lookup` gives on the old cache, and leaves the cache `Lookup` gives. |
| `Resolver.FindSettings` | src/ng-generate/build/index.ts:285-309 | The outer reverse loop over collections returns the scan's hit. |
| `Resolver.FindInCollection` | src/ng-generate/build/index.ts:286-308 | The inner reverse loop over one collection's entries returns that collection's hit. |
| `Schematic.ColonFrom` | src/ng-generate/build/index.ts:379 | The index found is the first colon at or after the start, or the end. |
| `Schematic.SplitName` | src/ng-generate/build/index.ts:379 | `name.split(':', 2)`: the first part is the longest colon-free prefix. There is a second part exactly when the name has a colon. |
| `Schematic.SplitJoin` | src/ng-generate/build/index.ts:379 | Splitting `collection:schematic`, both colon-free, gives back both parts. |
| `Schematic.SplitAlias` | src/ng-generate/build/index.ts:379-385 | A colon-free name splits into itself and no schematic, so it is looked up as an alias. |
| `Schematic.ProjectSelectorQuirk` | src/ng-generate/build/index.ts:390-396 | A bare alias with a global hit that has a collection is looked up in the project layer with the alias itself as collection name. |
| `Schematic.NodeConfigKeys` | src/ng-generate/build/index.ts:427 | The node's options are its own settings with `project` set to the project name. |
| `Schematic.MergePrecedence` | src/ng-generate/build/index.ts:498-502 | In the merged settings, a global key wins over a project key, and a project key wins over the node's own key. The keys are exactly the union. |
| `Schematic.MergeExample` | src/ng-generate/build/index.ts:498-502 | The precedence on a concrete three-layer example. |
| `Schematic.CallOptionsPrecedence` | src/ng-generate/build/index.ts:555-561 | In a task's options, a non-empty instance name wins, then the settings, then `path` and `project`. No other key is set. |
| `Schematic.InstanceCalls` | src/ng-generate/build/index.ts:515-527 | There is one call per instance. |
| `Schematic.ExternalCalls` | src/ng-generate/build/index.ts:498-528 | A missing collection is reported before a missing schematic name. With both present there is no error, and exactly one call, or one per instance. |
| `Schematic.ExternalCallsTarget` | src/ng-generate/build/index.ts:556 | Every call runs the validated collection and schematic. |
| `Schematic.AliasNotFoundExactly` | src/ng-generate/build/index.ts:412-416 | A node fails with "alias not found" exactly when its name gives no schematic and neither layer resolves it. |
| `Schematic.ExplicitNameWins` | src/ng-generate/build/index.ts:379-425 | A node named `collection:schematic` runs exactly that, whatever the layers hold. |
| `Schematic.GlobalAliasWins` | src/ng-generate/build/index.ts:380-425 | A bare alias with a global hit runs the global hit's collection and schematic. When either is empty, it fails with the matching error. |
| `Schematic.GlobalSettingsReachTask` | src/ng-generate/build/index.ts:498-513 | Without instances, every setting of the global hit reaches the task's options unchanged. |
| `Schematic.PlanCountsTasks` | src/ng-generate/build/index.ts:512-528 | A node without error submits one task, or one per instance. |
| `Schematic.InstanceOverrides` | src/ng-generate/build/index.ts:515-527 | In an instance's task, its name wins, then its own settings, then the merged settings. |
| `Structure.ExtractStructures` | src/ng-generate/build/index.ts:436-443 | Only children of the requested type are kept. |
| `Structure.ExtractStructuresKeepsAll` | src/ng-generate/build/index.ts:436-443 | Every child of the requested type is kept. |
| `Structure.ExtractStructuresAppend` | src/ng-generate/build/index.ts:436-443 | The kept children of two lists laid end to end are those of the first followed by those of the second, so each child of the type is kept once, in key order. |
| `Structure.ExtractStructuresOne` | src/ng-generate/build/index.ts:436-443 | A single child is kept exactly when it has the requested type. |
| `Structure.WalkCountsTasks` | src/ng-generate/build/index.ts:314-359 | A walk hands out consecutive ids, one per task. It submits one task per schematic invocation reachable through folders (instances counted). |
| `Structure.SchematicDepsCount` | src/ng-generate/build/index.ts:329-341 | A level's schematic tasks all depend on the list given to the level. |
| `Structure.FoldersCountTasks` | src/ng-generate/build/index.ts:345-356 | The folder loop submits as many tasks as its folders count. |
| `Structure.WalkExtendsParent` | src/ng-generate/build/index.ts:346-358 | The returned list starts with the list given. It only holds ids already handed out. |
| `Structure.FoldersExtendParent` | src/ng-generate/build/index.ts:345-356 | The folder loop only appends to the list. |
| `Structure.WalkDependsBackwards` | src/ng-generate/build/index.ts:329-356 | Every task of a walk depends only on tasks submitted before it. |
| `Structure.FoldersDependBackwards` | src/ng-generate/build/index.ts:345-356 | The same, for the folder loop. |
| `Structure.WalkWaitsForParent` | src/ng-generate/build/index.ts:336-351 | Every task of a walk waits for every id of the list the walk was given. |
| `Structure.FoldersWaitForParent` | src/ng-generate/build/index.ts:345-356 | The same, for the folder loop. |
| `Structure.FoldersCountNext` | src/ng-generate/build/index.ts:345-356 | The folder loop takes one id per task. |
| `Structure.LeafFolderReturnsParent` | src/ng-generate/build/index.ts:329-358 | A level without folder children returns its list unchanged, though its schematics submit tasks. |
| `Structure.NestedFoldersRepeatIds` | src/ng-generate/build/index.ts:345-358 | Two nested empty folders on `[0]` return `[0, 0, 0]`: ids repeat. |
| `Structure.OneFolderChild` | src/ng-generate/build/index.ts:345-358 | A level whose only child is a folder returns its list followed by that folder's result. |
| `Emission.EmitCountsTasks` | src/ng-generate/build/index.ts:314-359 | A walk without error emits one call per task counted. |
| `Emission.SchematicsCountTasks` | src/ng-generate/build/index.ts:329-341 | The same, for a level's schematics. |
| `Emission.FoldersCountTasksEmitted` | src/ng-generate/build/index.ts:345-356 | The same, for the folder loop. |
| `Emission.SchematicsAfterError` | src/ng-generate/build/index.ts:329-341 | A schematic after an error is not processed. |
| `Emission.SchematicsStopAtError` | src/ng-generate/build/index.ts:329-341 | Once a prefix of the schematics fails, the rest change nothing. |
| `Emission.FoldersStopAtError` | src/ng-generate/build/index.ts:345-356 | Once a prefix of the folders fails, the rest change nothing. |
| `Build.Builder.CreateExternalSchematicCall` | src/ng-generate/build/index.ts:544-564 | Submits one task of the collection and schematic with the built options, and returns its id. |
| `Build.Builder.ExecuteExternalSchematicRules` | src/ng-generate/build/index.ts:487-531 | On a validation error nothing is submitted. Otherwise the calls of `ExternalCalls` are submitted on the given ids, and their consecutive ids are returned. |
| `Build.Builder.SubmitInstances` | src/ng-generate/build/index.ts:514-528 | The instance loop submits one task per instance, in key order, and returns their ids. |
| `Build.Builder.InstanceStep` | src/ng-generate/build/index.ts:515-527 | One more instance extends the ids and the log by its task. |
| `Build.Builder.ProcessSchematic` | src/ng-generate/build/index.ts:361-434 | The three lookups leave the cache of `SchematicPlan`. On an error nothing is submitted. Otherwise the plan's calls are submitted on the given ids. |
| `Build.Builder.ProcessSchematics` | src/ng-generate/build/index.ts:329-341 | The schematic loop submits exactly the emission of its nodes, each on the given ids, and returns their ids. An error ends it with that error. |
| `Build.Builder.ProcessStructure` | src/ng-generate/build/index.ts:314-359 | Returns the very list object it was given. That list only grew, and ends as `WalkLevel` says. The log is extended by the emitted calls, with the walk's dependencies. |
| `Build.Builder.ProcessFolders` | src/ng-generate/build/index.ts:345-356 | Each folder child gets a fresh list: this level's ids, then the shared list as it stands. What the child returns is appended to the shared list. |
| `Build.SchematicStep` | src/ng-generate/build/index.ts:329-341 | One more schematic without error extends the loop's state. |
| `Build.SchematicFails` | src/ng-generate/build/index.ts:329-341 | A failing schematic ends the loop, and its emission, with that error. |
| `Build.FolderStep` | src/ng-generate/build/index.ts:345-356 | One more folder without error extends the folder loop's state. |
| `Build.FolderFails` | src/ng-generate/build/index.ts:345-356 | A failing folder ends the folder loop with that error. |
| `Build.LevelFailsInSchematics` | src/ng-generate/build/index.ts:329-341 | A level whose schematics fail fails with that error. |
| `Build.LevelFailsInFolders` | src/ng-generate/build/index.ts:343-356 | A level whose folder loop fails fails with that error. |
| `Build.LevelFromParts` | src/ng-generate/build/index.ts:324-358 | The schematics' part followed by the folder loop's part is the walk of the level. |
| `Workspace.Keys` | src/ng-generate/build/index.ts:128-132 | `Object.keys`: the keys in order. |
| `Workspace.Field` | src/ng-generate/build/index.ts:101 | A field's value is `undefined` exactly when the object lacks the key. Otherwise it is the key's value. |
| `Workspace.PackagesOf` | src/ng-generate/build/index.ts:98-105 | One package entry per collection. |
| `Workspace.CheckPackagesTasks` | src/ng-generate/build/index.ts:95-117 | The `checkPackages` task is submitted exactly when `installCollection` is truthy. |
| `Workspace.AsSchematics` | src/ng-generate/build/index.ts:461-466 | The top-level keys, each as a schematic node, in order. |
| `Workspace.StructureJobs` | src/ng-generate/build/index.ts:220-222 | One `processStructure` call per structure of a project. |
| `Workspace.JobStep` | src/ng-generate/build/index.ts:216-237 | One more job extends the emission and the walk of the jobs before it. |
| `Workspace.EmitJobsAfterError` | src/ng-generate/build/index.ts:216-237 | A job after an error is not run. |
| `Workspace.JobsStopAtError` | src/ng-generate/build/index.ts:216-237 | Once some jobs fail, the jobs after them change nothing. |
| `Workspace.ProjectJobsStep` | src/ng-generate/build/index.ts:216-219 | One more project appends the jobs of its structures, at its path and with its layers. |
| `Workspace.ProjectJobsPrefix` | src/ng-generate/build/index.ts:216-237 | The jobs of the first projects come first. |
| `Workspace.EmitJobsCounts` | src/ng-generate/build/index.ts:216-237 | Jobs without error emit one call per task of their walk. |
| `Workspace.WalkJobsExtendsParent` | src/ng-generate/build/index.ts:223-231 | The shared list only grows. Ids are consecutive. Every id collected was handed out. |
| `Workspace.WalkJobsDependsBackwards` | src/ng-generate/build/index.ts:216-237 | Every task of the projects depends only on tasks submitted before it. |
| `Workspace.WalkJobsWaitFor` | src/ng-generate/build/index.ts:231 | Every task of the projects waits for every id of the list they start from. |
| `Workspace.SetupTasks` | src/ng-generate/build/index.ts:41-47 | Two or three setup tasks, in order. |
| `Workspace.PackagesTaskIds` | src/ng-generate/build/index.ts:46 | The `checkPackages` id, present exactly when that task was submitted. |
| `Workspace.ProjectsRunWaitFor` | src/ng-generate/build/index.ts:57-63 | Every task of the projects' structures waits for every id of the shared list. |
| `Workspace.RunOrder` | src/ng-generate/build/index.ts:41-63 | The setup tasks wait for nothing. Every later task waits for `checkProjects` and, when present, for `checkPackages`. Every structure task waits for every top-level schematic task. |
| `Workspace.LogOrder` | src/ng-generate/build/index.ts:41-63 | The same order for any structure tasks that wait for the shared list. |
| `Workspace.OrderOfParts` | src/ng-generate/build/index.ts:41-63 | The order of setup, top-level and structure tasks laid end to end. |
| `Workspace.SharedBelow` | src/ng-generate/build/index.ts:57-58 | The shared list only holds ids already handed out. |
| `Run.CheckCollections` | src/ng-generate/build/index.ts:89-118 | Submits `checkPackages` exactly when `installCollection` is truthy: with every collection (version only when truthy) when `addCollections` is truthy, otherwise with the picked ones. Returns its id. |
| `Run.AddCollectionsToAngularJson` | src/ng-generate/build/index.ts:120-141 | Submits `AddCollectionsAngularJson` with every collection name, in order, with no dependencies. |
| `Run.EnsureProjectExists` | src/ng-generate/build/index.ts:173-189 | Submits `checkProjects` with no dependencies. Returns the parent ids followed by its id. |
| `Run.ExecuteGlobalSchematicRules` | src/ng-generate/build/index.ts:445-475 | The top-level schematics run at `/` with the global layer alone, each on the parent ids. The result, cache and log are those of `GlobalRun`. |
| `Run.GlobalRan` | src/ng-generate/build/index.ts:460-474 | The top-level loop without error is `GlobalRun`. |
| `Run.GlobalFailed` | src/ng-generate/build/index.ts:460-474 | A failing top-level loop is a failing `GlobalRun`. |
| `Run.JobWalked` | src/ng-generate/build/index.ts:222-235 | One more structure walked extends the jobs' state. What the shared list holds after it is appended to the collected ids. |
| `Run.JobFails` | src/ng-generate/build/index.ts:222-235 | A failing structure fails the jobs. |
| `Run.JobsFailedExtends` | src/ng-generate/build/index.ts:216-237 | A failure stops every longer list of jobs. |
| `Run.ProjectsRunWalked` | src/ng-generate/build/index.ts:191-239 | Jobs walked without error are `ProjectsRun`. |
| `Run.ProjectsRunFailed` | src/ng-generate/build/index.ts:191-239 | Failing jobs are a failing `ProjectsRun`. |
| `Run.ProcessStructureJob` | src/ng-generate/build/index.ts:222-235 | One `processStructure` call on the shared list, its result appended to the collected ids. |
| `Run.StructureJobsStep` | src/ng-generate/build/index.ts:220-222 | One more structure appends one job. |
| `Run.StructureJobsPrefix` | src/ng-generate/build/index.ts:220-222 | The jobs of the first structures come first. |
| `Run.ProcessProjectStructures` | src/ng-generate/build/index.ts:219-236 | A project's structures, in order, on the shared list. |
| `Run.ProcessProject` | src/ng-generate/build/index.ts:216-237 | One project, at its workspace root or `newProjectRoot/<name>`, with the global layer and its own. |
| `Run.ProcessProjects` | src/ng-generate/build/index.ts:191-239 | Every project's structures in order, on one shared list. Returns the list as it stood after each structure, concatenated. An error ends it. |
| `Run.ProcessSharedProjects` | src/ng-generate/build/index.ts:57-63 | `processProjects` on the top-level ids, the `ensureProjectExists` ids and the `checkPackages` id. |
| `Run.SubmitSetup` | src/ng-generate/build/index.ts:41-47 | The setup tasks, in order, with their ids. |
| `Run.RunSchematics` | src/ng-generate/build/index.ts:49-63 | The top-level schematics, then the projects, end as `SchematicsAfter` says. |
| `Run.RunAfterGlobal` | src/ng-generate/build/index.ts:57-63 | After the top-level schematics, the projects end the run as `SchematicsAfter` says. |
| `Run.GlobalStops` | src/ng-generate/build/index.ts:49-55 | An error of the top-level schematics ends the run. |
| `Run.GlobalGoesOn` | src/ng-generate/build/index.ts:57-63 | Without that error, the projects run next, on the shared list. |
| `Run.EndedAfterSetup` | src/ng-generate/build/index.ts:41-63 | The setup tasks come first in the log of a run without error. |
| `Run.SetupRunEnded` | src/ng-generate/build/index.ts:41-63 | After the setup tasks, the run ends as its schematics end it. |
| `Run.ExecuteWorkspaceSchematics` | src/ng-generate/build/index.ts:31-82 | Without a truthy `$schema`, the run fails at once with nothing submitted. Otherwise it ends as `WorkspaceRun` says: its error, cache and, without error, its log. |
| `Run.RunWorkspace` | src/ng-generate/build/index.ts:41-63 | Past the `$schema` check: the setup tasks, then the schematics. |
| `Duplicates.Dedupe` | src/ng-generate/build/index.ts:566-578 | No id repeats, and the ids are exactly the input's. |
| `Duplicates.DedupeOfNoRepeats` | src/ng-generate/build/index.ts:566-578 | Ids without repeats come back unchanged. |
| `Duplicates.DedupeIdempotent` | src/ng-generate/build/index.ts:566-578 | Removing duplicates twice is removing them once. |
| `Duplicates.DedupeKeepsFirstOrder` | src/ng-generate/build/index.ts:566-578 | The ids come out in the order of their first occurrences. |
| `Duplicates.RemoveDuplicates` | src/ng-generate/build/index.ts:566-578 | The loop with its set of seen ids computes `Dedupe`. |
| `Duplicates.DedupeExample` | src/ng-generate/build/index.ts:566-578 | `[1, 2, 1, 3]` gives `[1, 2, 3]`. |
| `AddCollections.Existing` | src/ng-generate/add-collections-angular-json/index.ts:9 | A missing `cli` or list counts as empty. |
| `AddCollections.AppendAbsentContents` | src/ng-generate/add-collections-angular-json/index.ts:10-12 | The old list stays a prefix. Afterwards the list holds exactly the old entries and the packages. Nothing is repeated that was not repeated before. |
| `AddCollections.AppendAbsentOrder` | src/ng-generate/add-collections-angular-json/index.ts:10-12 | What is appended is the packages not listed before, each once, in input order. |
| `AddCollections.AppendAbsentExample` | src/ng-generate/add-collections-angular-json/index.ts:9-12 | A listed package is not appended again, and a missing list counts as empty. |
| `AddCollections.AddCollectionsAngularJson` | src/ng-generate/add-collections-angular-json/index.ts:4-21 | `cli` is created when absent. Only `schematicCollections` is assigned, to the appended list. The other keys of `cli` are kept. |
| `CheckProjects.CreatedAreMissing` | src/ng-generate/check-projects/index.ts:19-36 | A project is created only if it is named, absent from the workspace and declared with a non-empty `type`. The task runs that type. |
| `CheckProjects.FailsAtFirstBlocker` | src/ng-generate/check-projects/index.ts:19-28 | The loop fails exactly when a name must be created but cannot be. It fails at the first such name, with "Type is needed for every project" for a declared one. |
| `CheckProjects.CreatesEveryMissing` | src/ng-generate/check-projects/index.ts:19-39 | Without failure, every named project absent from the workspace is created. |
| `CheckProjects.CreatedGrows` | src/ng-generate/check-projects/index.ts:19-43 | Tasks added for earlier names stay, whatever happens later. |
| `CheckProjects.CheckStopsAfterFailure` | src/ng-generate/check-projects/index.ts:19-43 | Once the loop fails, later names change nothing. |
| `CheckProjects.CreateTasks` | src/ng-generate/check-projects/index.ts:30-36 | One creation task per project created. |
| `CheckProjects.CheckProjects` | src/ng-generate/check-projects/index.ts:9-45 | Adds one `@schematics/angular` task of the project's type, with `{name, skipPackageJson: true}` on `parentTasks`, per project to create, in name order. Returns the error that stopped the loop. |

## Left out

- Reading the spec: base64 and JSON decoding, and `project-structure.json`. The parsed spec is the input `WorkspaceSpec`. Every object's keys are a sequence in JavaScript's enumeration order: integer-like keys such as `"1"` or `"2024"` first, in ascending order, then the other keys in insertion order. The model takes that sequence as given for folder, instance and project keys.
- The Angular workspace: `readWorkspace` and `getProject` are given as a map from project name to root, and `newProjectRoot` is a parameter.
- `parseName` is an uninterpreted function field of the `Builder`, and its source is not part of this model.
- Terminal prompts: the packages picked at the `addCollections` prompt are a parameter (`picked`). `Boolean(...) ?? prompt` never prompts, so `installCollection` is only its truthiness.
- `removePackages`: its call is commented out in the source. `removeDuplicates`, which only it uses, is modelled on its own.
- Console output: the banner, spinners and colours.
- The wrapping of errors into "Something happened executing Build Schematic: …": the model returns the inner error.
- The `TypeError` raised when the spec has no `settings` at all: the model takes a settings layer, which may be empty.
- `async`/`Promise` and the devkit engine that runs the submitted tasks: the dispatcher only records them.
- `CheckProjects.CheckProjects` takes the workspace and `parentTasks` as parameters and models the rule as its own code reads. The build never passes them: its only call, in `ensureProjectExists` (build/index.ts:181-185), gives just `projects` and `projectNames`. So `workspace` is `undefined` (check-projects/index.ts:15). `getProject` then throws a `TypeError` on the first name, at `workspace.projects.get` (src/utils/file-utils.ts:41), and the rule rethrows it (check-projects/index.ts:40-43). As the program is written, `checkProjects` never creates a project when there is a project name. The model does not capture that failure. A project named but not declared in the spec raises `UndeclaredProject`, for the source's `TypeError`.
- `Run.ExecuteWorkspaceSchematics`: on an error the log is left unspecified. The source leaves the tasks already submitted in place, and so does the model, but its contract does not state them.
- `Run.ProcessProjects`: on an error its contract states the error and the cache, not the tasks already submitted.
- `Build.Builder.ProcessSchematics`, `Build.Builder.ProcessFolders`, `Run.ProcessStructureJob`, `Run.ProcessProjectStructures`, `Run.ProcessProject`, `Run.ProcessSharedProjects`, `Run.RunSchematics`, `Run.RunAfterGlobal` and `Run.RunWorkspace` have the same gap: on an error they state the error and the cache, not the tasks already submitted. It is harmless, because a rule that throws never has its queued tasks run.
- `Run.ExecuteWorkspaceSchematics`, `Run.RunWorkspace` and `Run.EnsureProjectExists`: the spec's `projects` is a list, so a spec without a `projects` key cannot be represented. Nor can a `null` project entry. In the source, a missing `projects` raises a `TypeError` at `Object.keys(projects)` (build/index.ts:178). By then `checkPackages` and `AddCollectionsAngularJson` have been submitted. The error is wrapped at build/index.ts:79. A `null` entry fails at the destructuring in build/index.ts:217 and check-projects/index.ts:24. These `TypeError`s are dropped. An empty list, the nearest input the model can take, succeeds: `checkProjects` is submitted and every top-level schematic runs.
- `Resolver.Lookup`: the cache and the layers are Dafny maps and sequences, not plain JavaScript objects. In the source, a layer or alias name equal to an `Object.prototype` member (`constructor`, `toString`, `__proto__`) reads an inherited property in `settingsCached` (build/index.ts:241, 277-282, 294) and in `projects`. The model sees no such property.
- `AddCollections.AddCollectionsAngularJson`: `cli` and `schematicCollections` are taken to be an object and a list of strings. A non-object `cli`, or a non-list `schematicCollections`, behaves differently in the source (add-collections-angular-json/index.ts:9-15) and is not represented.
- `Schematic.NodeConfigKeys` and `Schematic.InstanceOverrides`: node settings and `instances` are taken to be objects. The source's spreads of non-objects (build/index.ts:427, 515-520) are not represented.
- `CheckProjects.CreatedAreMissing`: a project's `type` is a string or absent. A non-string `type` is not represented.
- JSON numbers are held as `int`, so fractional numbers in settings are not represented.
- `Resolver.SettingsOf`, `Resolver.AliasOf` and `Structure.ExtractStructures`: settings details and spec children are taken to be objects, as the source's types declare. A `null` details value reached by the reverse scan, or a `null` child, raises a `TypeError` in the source (build/index.ts:287, 441). That error is dropped: the scan passes over the entry, and the walk skips the child. A string or array details value, whose index keys the source would spread into the settings, gives empty settings here.
- `Build.Builder.ProcessStructure`: on an error its contract states the error and the cache, not the tasks already submitted or the list.
