/**
 * The parsed workspace spec (`project-structure.json`) and the shape of the
 * walk `processStructure` makes over it (build/index.ts).
 *
 * A folder's children are processed in two groups: first every child typed
 * `schematic`, then every child typed `folder`, each group in key order.
 * Children typed otherwise are skipped. The functions below give, for a walk
 * that raises no error, the id list the walker returns, the next free task id
 * and the dependency list of every task it submits, in submission order.
 */
module Structure {
  import opened Common
  import opened Resolver

  /** What a `schematic` node says: its `settings` and its named `instances`. */
  datatype Invocation = Invocation(settings: Option<Config>, instances: Option<seq<(string, Config)>>)

  /**
   * A node of the spec tree, by its `type`: a folder with its other keys as
   * children, a schematic invocation, or an object of any other type (skipped
   * by the walk). Every child is taken to be an object.
   */
  datatype Node =
    | Folder(children: seq<(string, Node)>)
    | Schematic(invocation: Invocation)
    | Untyped

  /** A project of the spec: its `type`, its `settings` layer and its other keys. */
  datatype Project = Project(kind: Option<string>, settings: Option<Layer>, structures: seq<(string, Node)>)

  /**
   * The spec: `$schema`, the global `settings` layer, `projects`, and the
   * remaining top-level keys, each run as a schematic at the workspace root.
   */
  datatype WorkspaceSpec = WorkspaceSpec(
    schema: Value,
    settings: Layer,
    projects: seq<(string, Project)>,
    schematics: seq<(string, Invocation)>)

  datatype Kind = SchematicKind | FolderKind

  /** The node is of the kind asked for. */
  predicate HasKind(n: Node, kind: Kind)
  {
    match kind
    case SchematicKind => n.Schematic?
    case FolderKind => n.Folder?
  }

  /** The children of a folder node; a schematic node has none. */
  function ChildrenOf(n: Node): seq<(string, Node)>
  {
    if n.Folder? then n.children else []
  }

  /** `extractStructures(content, type)`: the children of that type, in key order. */
  function ExtractStructures(content: seq<(string, Node)>, kind: Kind): (r: seq<(string, Node)>)
    ensures |r| <= |content|
    ensures forall i :: 0 <= i < |r| ==> r[i] in content && HasKind(r[i].1, kind)
  {
    if content == [] then []
    else
      var last := content[|content| - 1];
      ExtractStructures(content[..|content| - 1], kind) + (if HasKind(last.1, kind) then [last] else [])
  }

  /** Every child of the kind is kept. */
  lemma {:induction false} ExtractStructuresKeepsAll(content: seq<(string, Node)>, kind: Kind)
    ensures forall e :: e in content && HasKind(e.1, kind) ==> e in ExtractStructures(content, kind)
    decreases |content|
  {
    if content != [] {
      var n := |content| - 1;
      ExtractStructuresKeepsAll(content[..n], kind);
      forall e | e in content && HasKind(e.1, kind)
        ensures e in ExtractStructures(content, kind)
      {
        if e != content[n] {
          var k :| 0 <= k < |content| && content[k] == e;
          assert e in content[..n] by { assert content[..n][k] == e; }
        }
      }
    }
  }

  /**
   * Extraction distributes over concatenation: the kept children of `a + b`
   * are those of `a` followed by those of `b`. With `ExtractStructuresOne`
   * this fixes the result: each child of the kind once, in key order.
   */
  lemma {:induction false} ExtractStructuresAppend(a: seq<(string, Node)>, b: seq<(string, Node)>, kind: Kind)
    ensures ExtractStructures(a + b, kind) == ExtractStructures(a, kind) + ExtractStructures(b, kind)
    decreases |b|
  {
    if b != [] {
      var n := |b| - 1;
      assert (a + b)[..|a + b| - 1] == a + b[..n];
      assert (a + b)[|a + b| - 1] == b[n];
      ExtractStructuresAppend(a, b[..n], kind);
    } else {
      assert a + b == a;
    }
  }

  /** A single child is kept exactly when it is of the kind. */
  lemma ExtractStructuresOne(e: (string, Node), kind: Kind)
    ensures ExtractStructures([e], kind) == (if HasKind(e.1, kind) then [e] else [])
  {
    assert [e][..0] == [];
  }

  /** The number of tasks a schematic node submits: one, or one per instance. */
  function TaskCount(n: Node): nat
  {
    if !n.Schematic? then 0
    else if n.invocation.instances.None? then 1
    else |n.invocation.instances.value|
  }

  /** `n` copies of `x`. */
  function Repeat<T>(x: T, n: nat): (r: seq<T>)
    ensures |r| == n && forall i :: 0 <= i < n ==> r[i] == x
  {
    if n == 0 then [] else Repeat(x, n - 1) + [x]
  }

  /** What a walk returns, the next free id after it, and the dependencies of each task it submitted. */
  datatype Walk = Walk(ids: seq<TaskId>, next: nat, deps: seq<seq<TaskId>>)

  /** The dependency lists of the tasks submitted by the schematic children `gens`, all on `parent`. */
  function SchematicDeps(gens: seq<(string, Node)>, parent: seq<TaskId>): seq<seq<TaskId>>
  {
    if gens == [] then []
    else SchematicDeps(gens[..|gens| - 1], parent) + Repeat(parent, TaskCount(gens[|gens| - 1].1))
  }

  /**
   * `processStructure` on `node` with the list `parent`, ids handed out from
   * `next` on. The schematic children's ids form this level's branch; every
   * folder child is walked with the branch followed by `parent` as it stands
   * then, and what it returns is appended to `parent`.
   */
  function WalkLevel(node: Node, parent: seq<TaskId>, next: nat): Walk
    decreases node, 1
  {
    var content := ChildrenOf(node);
    var branchDeps := SchematicDeps(ExtractStructures(content, SchematicKind), parent);
    var branch := Range(next, next + |branchDeps|);
    var folders := WalkFolders(ExtractStructures(content, FolderKind), node, branch, parent, next + |branchDeps|);
    Walk(folders.ids, folders.next, branchDeps + folders.deps)
  }

  /** The folder loop of `processStructure`; `owner` is the node whose children `folders` are. */
  function WalkFolders(folders: seq<(string, Node)>, ghost owner: Node, branch: seq<TaskId>, parent: seq<TaskId>, next: nat): Walk
    requires forall i :: 0 <= i < |folders| ==> folders[i].1 < owner
    decreases owner, 0, |folders|
  {
    if folders == [] then Walk(parent, next, [])
    else
      var before := WalkFolders(folders[..|folders| - 1], owner, branch, parent, next);
      var child := WalkLevel(folders[|folders| - 1].1, branch + before.ids, before.next);
      Walk(before.ids + child.ids, child.next, before.deps + child.deps)
  }

  /** Reference count: the schematic invocations reachable through folders, instances counted one by one. */
  function CountTasks(node: Node): nat
    decreases node, 1
  {
    var content := ChildrenOf(node);
    CountAll(ExtractStructures(content, SchematicKind), node)
      + CountAll(ExtractStructures(content, FolderKind), node)
  }

  /** The tasks submitted by every node of `nodes`, children of `owner`. */
  function CountAll(nodes: seq<(string, Node)>, ghost owner: Node): nat
    requires forall i :: 0 <= i < |nodes| ==> nodes[i].1 < owner
    decreases owner, 0, |nodes|
  {
    if nodes == [] then 0
    else
      var last := nodes[|nodes| - 1].1;
      CountAll(nodes[..|nodes| - 1], owner) + (if last.Folder? then CountTasks(last) else TaskCount(last))
  }

  /** All of `ids` were handed out before `next`. */
  ghost predicate Below(ids: seq<TaskId>, next: nat)
  {
    forall d :: d in ids ==> d < next
  }

  /**
   * The walk hands out consecutive ids, one per submitted task, and submits
   * exactly as many tasks as the tree has schematic invocations reachable
   * through folders.
   */
  lemma {:induction false} WalkCountsTasks(node: Node, parent: seq<TaskId>, next: nat)
    ensures var w := WalkLevel(node, parent, next);
      w.next == next + |w.deps| && |w.deps| == CountTasks(node)
    decreases node, 1
  {
    var content := ChildrenOf(node);
    var gens := ExtractStructures(content, SchematicKind);
    SchematicDepsCount(gens, node, parent);
    var n := next + |SchematicDeps(gens, parent)|;
    FoldersCountTasks(ExtractStructures(content, FolderKind), node, Range(next, n), parent, n);
  }

  /** The schematic children submit one task each, all waiting for `parent`. */
  lemma {:induction false} SchematicDepsCount(gens: seq<(string, Node)>, owner: Node, parent: seq<TaskId>)
    requires forall i :: 0 <= i < |gens| ==> gens[i].1 < owner && gens[i].1.Schematic?
    ensures var d := SchematicDeps(gens, parent);
      |d| == CountAll(gens, owner) && forall i :: 0 <= i < |d| ==> d[i] == parent
    decreases |gens|
  {
    if gens != [] {
      SchematicDepsCount(gens[..|gens| - 1], owner, parent);
    }
  }

  /** Walking folders submits as many tasks as they count, each with its own id. */
  lemma {:induction false} FoldersCountTasks(folders: seq<(string, Node)>, owner: Node, branch: seq<TaskId>, parent: seq<TaskId>, next: nat)
    requires forall i :: 0 <= i < |folders| ==> folders[i].1 < owner && folders[i].1.Folder?
    ensures var w := WalkFolders(folders, owner, branch, parent, next);
      w.next == next + |w.deps| && |w.deps| == CountAll(folders, owner)
    decreases owner, 0, |folders|
  {
    if folders != [] {
      var n := |folders| - 1;
      FoldersCountTasks(folders[..n], owner, branch, parent, next);
      var before := WalkFolders(folders[..n], owner, branch, parent, next);
      WalkCountsTasks(folders[n].1, branch + before.ids, before.next);
    }
  }

  /**
   * The list the walk returns starts with the list it was given, extended
   * only by appending, and holds only ids handed out by the end of the walk.
   */
  lemma {:induction false} WalkExtendsParent(node: Node, parent: seq<TaskId>, next: nat)
    requires Below(parent, next)
    ensures var w := WalkLevel(node, parent, next);
      parent <= w.ids && Below(w.ids, w.next) && next <= w.next
    decreases node, 1
  {
    var content := ChildrenOf(node);
    var n := next + |SchematicDeps(ExtractStructures(content, SchematicKind), parent)|;
    FoldersExtendParent(ExtractStructures(content, FolderKind), node, Range(next, n), parent, n);
  }

  /** Walking folders only extends the parent list, with ids already issued. */
  lemma {:induction false} FoldersExtendParent(folders: seq<(string, Node)>, owner: Node, branch: seq<TaskId>, parent: seq<TaskId>, next: nat)
    requires forall i :: 0 <= i < |folders| ==> folders[i].1 < owner
    requires Below(branch, next) && Below(parent, next)
    ensures var w := WalkFolders(folders, owner, branch, parent, next);
      parent <= w.ids && Below(w.ids, w.next) && next <= w.next
    decreases owner, 0, |folders|
  {
    if folders != [] {
      var n := |folders| - 1;
      FoldersExtendParent(folders[..n], owner, branch, parent, next);
      var before := WalkFolders(folders[..n], owner, branch, parent, next);
      WalkExtendsParent(folders[n].1, branch + before.ids, before.next);
    }
  }

  /** The task with id `next + i` depends only on ids below it. */
  ghost predicate DependsBackwards(deps: seq<seq<TaskId>>, next: nat)
  {
    forall i :: 0 <= i < |deps| ==> Below(deps[i], next + i)
  }

  /** Every task the walk submits depends only on tasks submitted before it. */
  lemma {:induction false} WalkDependsBackwards(node: Node, parent: seq<TaskId>, next: nat)
    requires Below(parent, next)
    ensures DependsBackwards(WalkLevel(node, parent, next).deps, next)
    decreases node, 1
  {
    var content := ChildrenOf(node);
    var gens := ExtractStructures(content, SchematicKind);
    var branchDeps := SchematicDeps(gens, parent);
    SchematicDepsCount(gens, node, parent);
    var n := next + |branchDeps|;
    var fs := ExtractStructures(content, FolderKind);
    FoldersDependBackwards(fs, node, Range(next, n), parent, n);
    var f := WalkFolders(fs, node, Range(next, n), parent, n);
    assert DependsBackwards(branchDeps, next) by {
      forall i | 0 <= i < |branchDeps|
        ensures Below(branchDeps[i], next + i)
      {
        assert branchDeps[i] == parent;
      }
    }
    assert WalkLevel(node, parent, next).deps == branchDeps + f.deps;
    DependsBackwardsAppend(branchDeps, f.deps, next);
  }

  /** Tasks that depend backwards, followed by more that do from where they stop, depend backwards. */
  lemma DependsBackwardsAppend(a: seq<seq<TaskId>>, b: seq<seq<TaskId>>, next: nat)
    requires DependsBackwards(a, next) && DependsBackwards(b, next + |a|)
    ensures DependsBackwards(a + b, next)
  {
    forall i | 0 <= i < |a + b|
      ensures Below((a + b)[i], next + i)
    {
      if i >= |a| {
        assert (a + b)[i] == b[i - |a|];
      }
    }
  }

  /** The tasks submitted by the folders only wait for tasks submitted before them. */
  lemma {:induction false} FoldersDependBackwards(folders: seq<(string, Node)>, owner: Node, branch: seq<TaskId>, parent: seq<TaskId>, next: nat)
    requires forall i :: 0 <= i < |folders| ==> folders[i].1 < owner
    requires Below(branch, next) && Below(parent, next)
    ensures DependsBackwards(WalkFolders(folders, owner, branch, parent, next).deps, next)
    decreases owner, 0, |folders|
  {
    if folders != [] {
      var n := |folders| - 1;
      FoldersDependBackwards(folders[..n], owner, branch, parent, next);
      FoldersExtendParent(folders[..n], owner, branch, parent, next);
      var before := WalkFolders(folders[..n], owner, branch, parent, next);
      WalkDependsBackwards(folders[n].1, branch + before.ids, before.next);
      WalkCountsTasks(folders[n].1, branch + before.ids, before.next);
      FoldersCountNext(folders[..n], owner, branch, parent, next);
      var child := WalkLevel(folders[n].1, branch + before.ids, before.next);
      assert DependsBackwards(child.deps, before.next);
      assert WalkFolders(folders, owner, branch, parent, next).deps == before.deps + child.deps;
      DependsBackwardsAppend(before.deps, child.deps, next);
    }
  }

  /** Every dependency list of `deps` holds every id of `ids`. */
  ghost predicate WaitFor(deps: seq<seq<TaskId>>, ids: seq<TaskId>)
  {
    forall i :: 0 <= i < |deps| ==> forall d :: d in ids ==> d in deps[i]
  }

  /**
   * Every task the walk submits waits for every id of the list it was given:
   * a folder's children inherit the whole list, never a part of it.
   */
  lemma {:induction false} WalkWaitsForParent(node: Node, parent: seq<TaskId>, next: nat)
    requires Below(parent, next)
    ensures WaitFor(WalkLevel(node, parent, next).deps, parent)
    decreases node, 1
  {
    var content := ChildrenOf(node);
    var gens := ExtractStructures(content, SchematicKind);
    var branchDeps := SchematicDeps(gens, parent);
    SchematicDepsCount(gens, node, parent);
    var n := next + |branchDeps|;
    var fs := ExtractStructures(content, FolderKind);
    FoldersWaitForParent(fs, node, Range(next, n), parent, n);
    var f := WalkFolders(fs, node, Range(next, n), parent, n);
    assert WaitFor(branchDeps, parent) by {
      forall i | 0 <= i < |branchDeps|
        ensures forall d :: d in parent ==> d in branchDeps[i]
      {
        assert branchDeps[i] == parent;
      }
    }
    assert WalkLevel(node, parent, next).deps == branchDeps + f.deps;
    WaitForAppend(branchDeps, f.deps, parent);
  }

  /** Tasks that wait for `ids`, followed by more that do, wait for `ids`. */
  lemma WaitForAppend(a: seq<seq<TaskId>>, b: seq<seq<TaskId>>, ids: seq<TaskId>)
    requires WaitFor(a, ids) && WaitFor(b, ids)
    ensures WaitFor(a + b, ids)
  {
    forall i | 0 <= i < |a + b|
      ensures forall d :: d in ids ==> d in (a + b)[i]
    {
      if i >= |a| {
        assert (a + b)[i] == b[i - |a|];
      } else {
        assert (a + b)[i] == a[i];
      }
    }
  }

  /** Tasks that wait for every id of `more` wait for every id of a part `ids` of it. */
  lemma WaitForPart(deps: seq<seq<TaskId>>, more: seq<TaskId>, ids: seq<TaskId>)
    requires WaitFor(deps, more) && forall d :: d in ids ==> d in more
    ensures WaitFor(deps, ids)
  {
  }

  /** The tasks submitted by the folders wait for every task of `parent`. */
  lemma {:induction false} FoldersWaitForParent(folders: seq<(string, Node)>, owner: Node, branch: seq<TaskId>, parent: seq<TaskId>, next: nat)
    requires forall i :: 0 <= i < |folders| ==> folders[i].1 < owner
    requires Below(branch, next) && Below(parent, next)
    ensures WaitFor(WalkFolders(folders, owner, branch, parent, next).deps, parent)
    decreases owner, 0, |folders|
  {
    if folders != [] {
      var n := |folders| - 1;
      FoldersWaitForParent(folders[..n], owner, branch, parent, next);
      FoldersExtendParent(folders[..n], owner, branch, parent, next);
      var before := WalkFolders(folders[..n], owner, branch, parent, next);
      assert Below(branch + before.ids, before.next);
      WalkWaitsForParent(folders[n].1, branch + before.ids, before.next);
      var child := WalkLevel(folders[n].1, branch + before.ids, before.next);
      assert forall d :: d in parent ==> d in branch + before.ids;
      WaitForPart(child.deps, branch + before.ids, parent);
      assert WalkFolders(folders, owner, branch, parent, next).deps == before.deps + child.deps;
      WaitForAppend(before.deps, child.deps, parent);
    }
  }

  /** Walking folders takes one id per task submitted. */
  lemma {:induction false} FoldersCountNext(folders: seq<(string, Node)>, owner: Node, branch: seq<TaskId>, parent: seq<TaskId>, next: nat)
    requires forall i :: 0 <= i < |folders| ==> folders[i].1 < owner
    ensures var w := WalkFolders(folders, owner, branch, parent, next);
      w.next == next + |w.deps|
    decreases |folders|
  {
    if folders != [] {
      var n := |folders| - 1;
      FoldersCountNext(folders[..n], owner, branch, parent, next);
      var before := WalkFolders(folders[..n], owner, branch, parent, next);
      WalkCountsTasks(folders[n].1, branch + before.ids, before.next);
    }
  }

  /**
   * A folder with no folder children returns the list it was given
   * unchanged: the ids of its own schematic children are submitted but do
   * not reach the returned list.
   */
  lemma LeafFolderReturnsParent(node: Node, parent: seq<TaskId>, next: nat)
    requires ExtractStructures(ChildrenOf(node), FolderKind) == []
    ensures WalkLevel(node, parent, next).ids == parent
    ensures |WalkLevel(node, parent, next).deps| == CountAll(ExtractStructures(ChildrenOf(node), SchematicKind), node)
  {
    SchematicDepsCount(ExtractStructures(ChildrenOf(node), SchematicKind), node, parent);
  }

  /**
   * The returned list can repeat ids: two nested folders under a level that
   * got `[0]` return `[0, 0, 0]`, with no task submitted at all.
   */
  lemma NestedFoldersRepeatIds()
    ensures WalkLevel(Folder([("a", Folder([("b", Folder([]))]))]), [0], 1).ids == [0, 0, 0]
  {
    var b := Folder([]);
    var inner := Folder([("b", b)]);
    LeafFolderReturnsParent(b, [0], 1);
    OneFolderChild("b", b, [0], 1);
    assert WalkLevel(inner, [0], 1).ids == [0, 0];
    OneFolderChild("a", inner, [0], 1);
    assert [0] + [0, 0] == [0, 0, 0];
  }

  /** A folder whose only child is the folder `f` returns its list followed by what `f` returns on it. */
  lemma OneFolderChild(k: string, f: Node, parent: seq<TaskId>, next: nat)
    requires f.Folder?
    ensures WalkLevel(Folder([(k, f)]), parent, next).ids == parent + WalkLevel(f, parent, next).ids
  {
    var node := Folder([(k, f)]);
    var content := [(k, f)];
    assert content[..0] == [];
    assert ExtractStructures(content, SchematicKind) == [];
    assert ExtractStructures(content, FolderKind) == content;
    assert Range(next, next) == [];
    assert content[..|content| - 1] == [];
    var before := WalkFolders(content[..0], node, [], parent, next);
    assert before == Walk(parent, next, []);
    assert content[|content| - 1] == (k, f);
    var w := WalkFolders(content, node, [], parent, next);
    assert w == Walk(parent + WalkLevel(f, [] + parent, next).ids, WalkLevel(f, [] + parent, next).next, [] + WalkLevel(f, [] + parent, next).deps);
    assert [] + parent == parent;
  }
}
