/** The build step that fails when emitted chunks import each other in a circle (apps/web/vite.config.ts). */
module CycleGuard {
  import opened Options
  import opened Sequences

  datatype Output = Asset | Chunk(imports: seq<string>)

  type Bundle = map<string, Output>

  predicate IsChunk(bundle: Bundle, file: string) {
    file in bundle && bundle[file].Chunk?
  }

  predicate Imports(bundle: Bundle, file: string, imported: string) {
    IsChunk(bundle, file) && imported in bundle[file].imports
  }

  /** A chain of imports, each file importing the next. */
  predicate IsPath(bundle: Bundle, path: seq<string>) {
    forall i | 0 <= i < |path| - 1 :: Imports(bundle, path[i], path[i + 1])
  }

  predicate Distinct(files: seq<string>) {
    forall i, j | 0 <= i < j < |files| :: files[i] != files[j]
  }

  predicate IsCycle(bundle: Bundle, cycle: seq<string>) {
    |cycle| >= 2 && cycle[0] == cycle[|cycle| - 1] && IsPath(bundle, cycle)
  }

  /** An order to load chunks in: whatever a chunk imports comes before it. */
  ghost predicate LoadsInOrder(bundle: Bundle, order: seq<string>) {
    forall i, f | 0 <= i < |order| && Imports(bundle, order[i], f) && IsChunk(bundle, f) :: f in order[..i]
  }

  function FilesOf(path: seq<string>): set<string> {
    set f <- path
  }

  class ChunkCycleGuard {
    const bundle: Bundle
    /** A set that remembers the order of insertion. */
    var done: seq<string>

    constructor (bundle: Bundle)
      ensures this.bundle == bundle && done == []
    {
      this.bundle := bundle;
      done := [];
    }

    ghost predicate Sound(path: seq<string>)
      reads this
    {
      && LoadsInOrder(bundle, done)
      && (forall f <- done :: IsChunk(bundle, f) && f !in path)
    }

    method Visit(fileName: string, path: seq<string>) returns (cycle: Option<seq<string>>)
      requires Sound(path) && Distinct(path) && IsPath(bundle, path + [fileName])
      requires forall f <- path :: IsChunk(bundle, f)
      modifies this
      ensures cycle.Some? ==> IsCycle(bundle, cycle.value) && Distinct(cycle.value[1..])
      ensures cycle.None? ==> Sound(path) && old(done) <= done && (IsChunk(bundle, fileName) ==> fileName in done)
      decreases |bundle.Keys - FilesOf(path)|
    {
      hide IsPath, Distinct, IsCycle, LoadsInOrder;
      if fileName in done {
        return None;
      }
      if fileName in path {
        var start := IndexOf(path, fileName);
        RestOfPathIsCycle(bundle, path, fileName, start);
        return Some(path[start..] + [fileName]);
      }
      if !IsChunk(bundle, fileName) {
        return None;
      }
      var longer := path + [fileName];
      FewerFilesLeft(bundle, path, fileName);
      for i := 0 to |bundle[fileName].imports|
        invariant Sound(longer) && old(done) <= done
        invariant forall j | 0 <= j < i && IsChunk(bundle, bundle[fileName].imports[j]) :: bundle[fileName].imports[j] in done
      {
        var imported := bundle[fileName].imports[i];
        PathGrows(bundle, path, fileName, imported);
        cycle := Visit(imported, longer);
        if cycle.Some? {
          return;
        }
      }
      AddingKeepsOrder(bundle, done, fileName);
      done := done + [fileName];
      cycle := None;
    }

    /** The whole check, for the files of the bundle in any order. */
    method Check(files: seq<string>) returns (cycle: Option<seq<string>>)
      requires done == [] && forall f <- bundle :: f in files
      modifies this
      ensures cycle.Some? ==> IsCycle(bundle, cycle.value) && Distinct(cycle.value[1..])
      ensures cycle.None? ==> LoadsInOrder(bundle, done) && forall f :: IsChunk(bundle, f) <==> f in done
      ensures cycle.None? <==> forall c :: !IsCycle(bundle, c)
    {
      for i := 0 to |files|
        invariant Sound([])
        invariant forall j | 0 <= j < i && IsChunk(bundle, files[j]) :: files[j] in done
      {
        cycle := Visit(files[i], []);
        if cycle.Some? {
          return;
        }
      }
      cycle := None;
      forall c ensures !IsCycle(bundle, c) {
        LoadOrderExcludesCycles(bundle, done, c);
      }
    }
  }

  method IndexOf(path: seq<string>, file: string) returns (start: nat)
    requires file in path
    ensures start < |path| && path[start] == file && file !in path[..start]
  {
    start := 0;
    while path[start] != file
      invariant start < |path| && file !in path[..start] && file in path[start..]
      decreases |path| - start
    {
      start := start + 1;
    }
  }

  lemma RestOfPathIsCycle(bundle: Bundle, path: seq<string>, file: string, start: nat)
    requires IsPath(bundle, path + [file]) && Distinct(path) && start < |path| && path[start] == file
    ensures var cycle := path[start..] + [file]; IsCycle(bundle, cycle) && Distinct(cycle[1..])
  {
    var cycle := path[start..] + [file];
    forall i | 0 <= i < |cycle| - 1 ensures Imports(bundle, cycle[i], cycle[i + 1]) {
      assert Imports(bundle, (path + [file])[start + i], (path + [file])[start + i + 1]);
    }
  }

  lemma PathGrows(bundle: Bundle, path: seq<string>, file: string, imported: string)
    requires IsPath(bundle, path + [file]) && Distinct(path) && file !in path && Imports(bundle, file, imported)
    ensures IsPath(bundle, path + [file] + [imported]) && Distinct(path + [file])
  {
    var longer := path + [file] + [imported];
    forall i | 0 <= i < |longer| - 1 ensures Imports(bundle, longer[i], longer[i + 1]) {
      assert i < |path| ==> Imports(bundle, (path + [file])[i], (path + [file])[i + 1]);
    }
  }

  lemma FewerFilesLeft(bundle: Bundle, path: seq<string>, file: string)
    requires file in bundle && file !in path
    ensures |bundle.Keys - FilesOf(path + [file])| < |bundle.Keys - FilesOf(path)|
  {
    assert bundle.Keys - FilesOf(path + [file]) == bundle.Keys - FilesOf(path) - {file};
  }

  lemma AddingKeepsOrder(bundle: Bundle, order: seq<string>, file: string)
    requires LoadsInOrder(bundle, order)
    requires forall f | Imports(bundle, file, f) && IsChunk(bundle, f) :: f in order
    ensures LoadsInOrder(bundle, order + [file])
  {
    var longer := order + [file];
    forall i, f | 0 <= i < |longer| && Imports(bundle, longer[i], f) && IsChunk(bundle, f) ensures f in longer[..i] {
      if i < |order| {
        assert longer[..i] == order[..i];
      } else {
        assert longer[..i] == order;
      }
    }
  }

  /** Following imports from a loaded file only leads to files loaded before it. */
  lemma {:induction false} ImportsComeEarlier(bundle: Bundle, order: seq<string>, path: seq<string>, k: nat, i: nat)
    requires LoadsInOrder(bundle, order) && IsPath(bundle, path) && 0 < i < |path| && k < |order| && path[0] == order[k]
    requires forall j | 0 <= j <= i :: IsChunk(bundle, path[j])
    ensures path[i] in order[..k]
  {
    if i == 1 {
      assert Imports(bundle, path[0], path[1]);
    } else {
      ImportsComeEarlier(bundle, order, path, k, i - 1);
      var m :| 0 <= m < k && order[m] == path[i - 1];
      assert Imports(bundle, path[i - 1], path[i]);
      assert path[i] in order[..m];
    }
  }

  lemma LoadOrderExcludesCycles(bundle: Bundle, order: seq<string>, cycle: seq<string>)
    requires LoadsInOrder(bundle, order) && forall f | IsChunk(bundle, f) :: f in order
    ensures !IsCycle(bundle, cycle)
  {
    if IsCycle(bundle, cycle) {
      var n := |cycle| - 1;
      assert Imports(bundle, cycle[0], cycle[1]);
      var k := FirstPlace(order, cycle[0]);
      forall j | 0 <= j <= n ensures IsChunk(bundle, cycle[j]) {
        assert j < n ==> Imports(bundle, cycle[j], cycle[j + 1]);
      }
      ImportsComeEarlier(bundle, order, cycle, k, n);
    }
  }
}
