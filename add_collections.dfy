/**
 * The `AddCollectionsAngularJson` schematic (add-collections-angular-json/index.ts):
 * registers packages in `cli.schematicCollections` of the Angular workspace
 * file, appending each package that is not listed yet.
 */
module AddCollections {
  import opened Common
  import opened Duplicates

  /** `extensions.cli` of the workspace: its `schematicCollections` list and every other key. */
  datatype Cli = Cli(schematicCollections: Option<seq<string>>, others: map<string, Value>)

  /** The `extensions` of the workspace file, which the rule updates in place. */
  class WorkspaceExtensions {
    var cli: Option<Cli>

    constructor (cli: Option<Cli>)
      ensures this.cli == cli
    {
      this.cli := cli;
    }
  }

  /** `cli?.schematicCollections ?? []` */
  function Existing(cli: Option<Cli>): (r: seq<string>)
    ensures cli.Some? && cli.value.schematicCollections.Some? ==> r == cli.value.schematicCollections.value
    ensures cli.None? || cli.value.schematicCollections.None? ==> r == []
  {
    if cli.Some? && cli.value.schematicCollections.Some? then cli.value.schematicCollections.value else []
  }

  /** The keys of `cli` other than `schematicCollections`; a `cli` created by the rule has none. */
  function OthersOf(cli: Option<Cli>): map<string, Value>
  {
    if cli.Some? then cli.value.others else map[]
  }

  /** The list after the loop: each package in turn is pushed unless the list already holds it. */
  function AppendAbsent(collections: seq<string>, packages: seq<string>): seq<string>
  {
    if packages == [] then collections
    else
      var n := |packages| - 1;
      var before := AppendAbsent(collections, packages[..n]);
      if packages[n] in before then before else before + [packages[n]]
  }

  /** The elements of `s` that are not in `c`, in order. */
  function Without(s: seq<string>, c: seq<string>): seq<string>
  {
    if s == [] then []
    else
      var n := |s| - 1;
      Without(s[..n], c) + (if s[n] in c then [] else [s[n]])
  }

  /** Filtering distributes over concatenation. */
  lemma {:induction false} WithoutAppend(a: seq<string>, b: seq<string>, c: seq<string>)
    ensures Without(a + b, c) == Without(a, c) + Without(b, c)
    decreases |b|
  {
    if b == [] {
      assert a + b == a;
    } else {
      var n := |b| - 1;
      var ab := a + b;
      assert ab[..|ab| - 1] == a + b[..n] && ab[|ab| - 1] == b[n];
      WithoutAppend(a, b[..n], c);
      assert Without(ab, c) == Without(a + b[..n], c) + (if b[n] in c then [] else [b[n]]);
      assert Without(b, c) == Without(b[..n], c) + (if b[n] in c then [] else [b[n]]);
    }
  }

  /**
   * The list keeps its old entries as a prefix, holds afterwards every
   * package and nothing else new, and appends nothing twice.
   */
  lemma {:induction false} AppendAbsentContents(collections: seq<string>, packages: seq<string>)
    ensures var r := AppendAbsent(collections, packages);
      && collections <= r
      && (forall x :: x in r <==> x in collections || x in packages)
      && (NoRepeats(collections) ==> NoRepeats(r))
    decreases |packages|
  {
    if packages != [] {
      var n := |packages| - 1;
      AppendAbsentContents(collections, packages[..n]);
      assert packages == packages[..n] + [packages[n]];
    }
  }

  /**
   * The packages appended are the packages not listed before, each at its
   * first occurrence in the input, in input order.
   */
  lemma {:induction false} AppendAbsentOrder(collections: seq<string>, packages: seq<string>)
    ensures AppendAbsent(collections, packages) == collections + Without(Dedupe(packages), collections)
    decreases |packages|
  {
    if packages != [] {
      var n := |packages| - 1;
      var x := packages[n];
      var before := AppendAbsent(collections, packages[..n]);
      var d := Dedupe(packages[..n]);
      AppendAbsentOrder(collections, packages[..n]);
      AppendAbsentContents(collections, packages[..n]);
      assert before == collections + Without(d, collections);
      WithoutAppend(d, [x], collections);
      assert Without([x], collections) == (if x in collections then [] else [x]) by {
        assert [x][..0] == [];
      }
      if x in packages[..n] {
        assert x in before;
      } else if x in collections {
        assert x in before;
        assert Without(d + [x], collections) == Without(d, collections);
      } else {
        assert x !in before;
        assert Without(d + [x], collections) == Without(d, collections) + [x];
        assert before + [x] == collections + (Without(d, collections) + [x]);
      }
    }
  }

  /** A package already listed is not appended again; a missing list counts as empty. */
  lemma AppendAbsentExample()
    ensures AppendAbsent(Existing(Some(Cli(Some(["a", "b"]), map[]))), ["b", "c", "c"]) == ["a", "b", "c"]
    ensures AppendAbsent(Existing(Some(Cli(None, map[]))), ["c"]) == ["c"]
  {
    assert ["b", "c", "c"][..2] == ["b", "c"];
    assert ["b", "c"][..1] == ["b"];
    assert ["b"][..0] == [];
    assert ["c"][..0] == [];
  }

  /**
   * `AddCollectionsAngularJson({packages})` on the workspace's extensions:
   * pushes every package not yet listed, creates `cli` when it is absent,
   * and assigns `schematicCollections` only.
   */
  method AddCollectionsAngularJson(ext: WorkspaceExtensions, packages: seq<string>)
    modifies ext
    ensures ext.cli == Some(Cli(Some(AppendAbsent(Existing(old(ext.cli)), packages)), OthersOf(old(ext.cli))))
  {
    var collections := Existing(ext.cli);
    ghost var existing := collections;
    var i := 0;
    while i < |packages|
      invariant 0 <= i <= |packages|
      invariant collections == AppendAbsent(existing, packages[..i])
    {
      assert packages[..i + 1][..i] == packages[..i];
      if packages[i] !in collections {
        collections := collections + [packages[i]];
      }
      i := i + 1;
    }
    assert packages[..i] == packages;
    if ext.cli.None? {
      ext.cli := Some(Cli(None, map[]));
    }
    ext.cli := Some(ext.cli.value.(schematicCollections := Some(collections)));
  }
}
