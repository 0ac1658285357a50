/**
 * The `checkProjects` schematic (check-projects/index.ts): for each project
 * name in turn, a project the Angular workspace lacks gets a task that
 * creates it with `@schematics/angular`; a project to create without a
 * `type` stops the loop with an error, after the tasks already added.
 */
module CheckProjects {
  import opened Common
  import opened Structure
  import opened Dispatch

  /** `new RunSchematicTask('@schematics/angular', type, {name, skipPackageJson: true})` on `parentTasks`. */
  function CreateTask(name: string, kind: string, parentTasks: seq<TaskId>): Task
  {
    Task(Some("@schematics/angular"), kind, Options(map["name" := Str(name), "skipPackageJson" := Bool(true)]), parentTasks)
  }

  /** The tasks creating the projects `created` (name and type), in order. */
  function CreateTasks(created: seq<(string, string)>, parentTasks: seq<TaskId>): (r: seq<Task>)
    ensures |r| == |created|
  {
    seq(|created|, i requires 0 <= i < |created| => CreateTask(created[i].0, created[i].1, parentTasks))
  }

  /** The projects created (name and type), and the error that stopped the loop, if any. */
  datatype Check = Check(created: seq<(string, string)>, failed: Option<BuildError>)

  /** A project that must be created but cannot be: it is not in the workspace and has no usable `type`. */
  predicate Blocks(projects: map<string, Project>, workspace: map<string, string>, name: string)
  {
    name !in workspace && (name !in projects || !Present(projects[name].kind))
  }

  /** The loop over `projectNames` with the workspace's projects `workspace` (name to root). */
  function CheckAll(projects: map<string, Project>, workspace: map<string, string>, names: seq<string>): Check
  {
    if names == [] then Check([], None)
    else
      var n := |names| - 1;
      var before := CheckAll(projects, workspace, names[..n]);
      var name := names[n];
      if before.failed.Some? || name in workspace then before
      else if name !in projects then Check(before.created, Some(UndeclaredProject(name)))
      else if !Present(projects[name].kind) then Check(before.created, Some(MissingProjectType))
      else Check(before.created + [(name, projects[name].kind.value)], None)
  }

  /**
   * A project is created only if it is named, missing from the workspace,
   * and declared with a non-empty type, which is the task's schematic.
   */
  lemma {:induction false} CreatedAreMissing(projects: map<string, Project>, workspace: map<string, string>, names: seq<string>)
    ensures forall e :: e in CheckAll(projects, workspace, names).created ==>
      && e.0 in names && e.0 !in workspace && e.0 in projects && projects[e.0].kind == Some(e.1) && e.1 != ""
    decreases |names|
  {
    if names != [] {
      var n := |names| - 1;
      CreatedAreMissing(projects, workspace, names[..n]);
      var before := CheckAll(projects, workspace, names[..n]);
      var c := CheckAll(projects, workspace, names);
      forall e | e in c.created
        ensures e.0 in names
      {
        if e in before.created {
          assert e.0 in names[..n];
        } else {
          assert e.0 == names[n];
        }
      }
    }
  }

  /** `names[k]` is the first name that blocks, and `e` is the error it raises. */
  predicate FirstBlocker(projects: map<string, Project>, workspace: map<string, string>, names: seq<string>, k: int, e: BuildError)
  {
    && 0 <= k < |names| && Blocks(projects, workspace, names[k])
    && (forall j :: 0 <= j < k ==> !Blocks(projects, workspace, names[j]))
    && e == (if names[k] in projects then MissingProjectType else UndeclaredProject(names[k]))
  }

  /**
   * The loop fails exactly when some name blocks; it then fails at the first
   * such name, with "Type is needed for every project" for a declared one.
   */
  lemma {:induction false} FailsAtFirstBlocker(projects: map<string, Project>, workspace: map<string, string>, names: seq<string>)
    ensures var c := CheckAll(projects, workspace, names);
      && (c.failed.None? <==> forall k :: 0 <= k < |names| ==> !Blocks(projects, workspace, names[k]))
      && (c.failed.Some? ==> exists k :: FirstBlocker(projects, workspace, names, k, c.failed.value))
    decreases |names|
  {
    if names != [] {
      var n := |names| - 1;
      FailsAtFirstBlocker(projects, workspace, names[..n]);
      var before := CheckAll(projects, workspace, names[..n]);
      if before.failed.Some? {
        var k :| FirstBlocker(projects, workspace, names[..n], k, before.failed.value);
        assert names[k] == names[..n][k];
        assert forall j :: 0 <= j < k ==> names[j] == names[..n][j];
        assert FirstBlocker(projects, workspace, names, k, before.failed.value);
      } else {
        assert forall j :: 0 <= j < n ==> names[j] == names[..n][j];
        var c := CheckAll(projects, workspace, names);
        if c.failed.Some? {
          assert FirstBlocker(projects, workspace, names, n, c.failed.value);
        }
      }
    }
  }

  /** When the loop does not fail, every named project missing from the workspace is created. */
  lemma {:induction false} CreatesEveryMissing(projects: map<string, Project>, workspace: map<string, string>, names: seq<string>)
    ensures var c := CheckAll(projects, workspace, names);
      c.failed.None? ==> forall k :: 0 <= k < |names| && names[k] !in workspace ==>
        exists i :: 0 <= i < |c.created| && c.created[i].0 == names[k]
    decreases |names|
  {
    if names != [] {
      var n := |names| - 1;
      CreatesEveryMissing(projects, workspace, names[..n]);
      var before := CheckAll(projects, workspace, names[..n]);
      var c := CheckAll(projects, workspace, names);
      if c.failed.None? {
        assert before.failed.None?;
        assert before.created <= c.created;
        forall k | 0 <= k < |names| && names[k] !in workspace
          ensures exists i :: 0 <= i < |c.created| && c.created[i].0 == names[k]
        {
          if k < n {
            assert names[..n][k] == names[k];
            var i :| 0 <= i < |before.created| && before.created[i].0 == names[k];
            assert c.created[i] == before.created[i];
          } else {
            assert c.created[|before.created|].0 == names[k];
          }
        }
      }
    }
  }

  /** Tasks added for earlier names are kept, whatever happens later in the loop. */
  lemma {:induction false} CreatedGrows(projects: map<string, Project>, workspace: map<string, string>, names: seq<string>, k: nat)
    requires k <= |names|
    ensures CheckAll(projects, workspace, names[..k]).created <= CheckAll(projects, workspace, names).created
    decreases |names| - k
  {
    if k < |names| {
      var n := |names| - 1;
      assert names[..n][..k] == names[..k];
      CreatedGrows(projects, workspace, names[..n], k);
    } else {
      assert names[..k] == names;
    }
  }

  /**
   * `checkProjects({projects, workspace, projectNames, parentTasks})`: adds
   * the creation tasks, each depending on `parentTasks`, and returns the
   * error that stopped the loop, if any.
   */
  method CheckProjects(disp: Dispatcher, projects: map<string, Project>, workspace: map<string, string>,
                       projectNames: seq<string>, parentTasks: seq<TaskId>)
    returns (failed: Option<BuildError>)
    requires disp.Valid() && disp.Issued(parentTasks)
    modifies disp
    ensures disp.Valid()
    ensures var c := CheckAll(projects, workspace, projectNames);
      failed == c.failed && disp.log == old(disp.log) + CreateTasks(c.created, parentTasks)
  {
    ghost var log0 := disp.log;
    var i := 0;
    while i < |projectNames|
      invariant 0 <= i <= |projectNames|
      invariant disp.Valid() && disp.Issued(parentTasks)
      invariant var c := CheckAll(projects, workspace, projectNames[..i]);
        c.failed.None? && disp.log == log0 + CreateTasks(c.created, parentTasks)
    {
      var name := projectNames[i];
      assert projectNames[..i + 1][..i] == projectNames[..i];
      ghost var before := CheckAll(projects, workspace, projectNames[..i]);
      if name !in workspace {
        if name !in projects {
          CheckStopsAfterFailure(projects, workspace, projectNames, i + 1);
          return Some(UndeclaredProject(name));
        }
        var kind := projects[name].kind;
        if !Present(kind) {
          CheckStopsAfterFailure(projects, workspace, projectNames, i + 1);
          return Some(MissingProjectType);
        }
        var _ := disp.AddTask(Some("@schematics/angular"), kind.value,
                              Options(map["name" := Str(name), "skipPackageJson" := Bool(true)]), parentTasks);
        assert CreateTasks(before.created + [(name, kind.value)], parentTasks)
            == CreateTasks(before.created, parentTasks) + [CreateTask(name, kind.value, parentTasks)];
      }
      i := i + 1;
    }
    assert projectNames[..i] == projectNames;
    return None;
  }

  /** Once the loop has failed on a prefix of the names, the rest of them change nothing. */
  lemma {:induction false} CheckStopsAfterFailure(projects: map<string, Project>, workspace: map<string, string>,
                                                  names: seq<string>, k: nat)
    requires k <= |names| && CheckAll(projects, workspace, names[..k]).failed.Some?
    ensures CheckAll(projects, workspace, names) == CheckAll(projects, workspace, names[..k])
    decreases |names| - k
  {
    if k < |names| {
      var n := |names| - 1;
      assert names[..n][..k] == names[..k];
      CheckStopsAfterFailure(projects, workspace, names[..n], k);
    } else {
      assert names[..k] == names;
    }
  }
}
