/**
 * `FileSearchUtils.findAllFilesRecursively`: a depth-first walk over a
 * project's file tree that collects the files with one given name, skipping
 * hidden directories and a set of build and dependency directories.
 */
module FileSearch {
  import opened Wrappers
  import opened KotlinText

  /** A node of the virtual file system: a file with its text, or a directory with its children in listing order. */
  datatype VirtualFile =
    | File(name: string, text: string)
    | Directory(name: string, children: seq<VirtualFile>)

  /** The `excludeDirs` default. */
  const DEFAULT_EXCLUDES: set<string> := {"node_modules", "build", "dist", "out"}

  /** The walk enters a child directory unless its name starts with "." or is excluded. */
  predicate Enters(child: VirtualFile, excludes: set<string>) {
    child.Directory? && !StartsWith(child.name, ".") && child.name !in excludes
  }

  // ---------------------------------------------------------------------------
  // Specification
  // ---------------------------------------------------------------------------

  /** What one child contributes: a whole entered subtree, itself if it is a matching file, or nothing. */
  function VisitChild(child: VirtualFile, filename: string, excludes: set<string>): seq<VirtualFile>
    decreases child, 1
  {
    if child.Directory? then
      if Enters(child, excludes) then SearchChildren(child.children, filename, excludes) else []
    else if child.name == filename then [child]
    else []
  }

  /** What a directory's children contribute, in listing order. */
  function SearchChildren(children: seq<VirtualFile>, filename: string, excludes: set<string>): seq<VirtualFile>
    decreases children, 0
  {
    if children == [] then []
    else VisitChild(children[0], filename, excludes) + SearchChildren(children[1..], filename, excludes)
  }

  /** The result of `findAllFilesRecursively(directory, filename, excludeDirs)`. */
  function SearchResults(directory: Option<VirtualFile>, filename: string, excludes: set<string>): seq<VirtualFile> {
    if directory.None? || !directory.value.Directory? then []
    else SearchChildren(directory.value.children, filename, excludes)
  }

  // ---------------------------------------------------------------------------
  // Reference definition: every file the walk can reach, whatever its name
  // ---------------------------------------------------------------------------

  /** Every file under the entered part of the tree, in depth-first listing order. */
  function ReachableFiles(children: seq<VirtualFile>, excludes: set<string>): seq<VirtualFile>
    decreases children
  {
    if children == [] then []
    else
      var c := children[0];
      (if c.File? then [c] else if Enters(c, excludes) then ReachableFiles(c.children, excludes) else [])
      + ReachableFiles(children[1..], excludes)
  }

  /** The files of `files` named `filename`, in order. */
  function Named(files: seq<VirtualFile>, filename: string): (r: seq<VirtualFile>)
    ensures forall k :: 0 <= k < |r| ==> r[k] in files && r[k].name == filename
  {
    if files == [] then []
    else (if files[0].name == filename then [files[0]] else []) + Named(files[1..], filename)
  }

  lemma {:induction false} NamedAppend(a: seq<VirtualFile>, b: seq<VirtualFile>, filename: string)
    ensures Named(a + b, filename) == Named(a, filename) + Named(b, filename)
  {
    if a == [] {
      assert a + b == b;
    } else {
      var head := if a[0].name == filename then [a[0]] else [];
      assert (a + b)[0] == a[0];
      assert (a + b)[1..] == a[1..] + b;
      NamedAppend(a[1..], b, filename);
      assert Named(a + b, filename) == head + (Named(a[1..], filename) + Named(b, filename));
      AppendAssoc(head, Named(a[1..], filename), Named(b, filename));
    }
  }

  /** Every file `ReachableFiles` lists is a file. */
  lemma {:induction false} ReachableAreFiles(children: seq<VirtualFile>, excludes: set<string>)
    ensures forall k :: 0 <= k < |ReachableFiles(children, excludes)| ==> ReachableFiles(children, excludes)[k].File?
    decreases children
  {
    if children != [] {
      var c := children[0];
      if c.Directory? && Enters(c, excludes) {
        ReachableAreFiles(c.children, excludes);
      }
      ReachableAreFiles(children[1..], excludes);
    }
  }

  /**
   * The walk returns exactly the reachable files named `filename`, in
   * depth-first order: it misses none, adds none, and lists each reachable
   * occurrence once.
   */
  lemma {:induction false} SearchIsNamedReachable(children: seq<VirtualFile>, filename: string, excludes: set<string>)
    ensures SearchChildren(children, filename, excludes) == Named(ReachableFiles(children, excludes), filename)
    decreases children
  {
    if children != [] {
      var c := children[0];
      var head := if c.File? then [c] else if Enters(c, excludes) then ReachableFiles(c.children, excludes) else [];
      NamedAppend(head, ReachableFiles(children[1..], excludes), filename);
      if c.Directory? && Enters(c, excludes) {
        SearchIsNamedReachable(c.children, filename, excludes);
      }
      SearchIsNamedReachable(children[1..], filename, excludes);
    }
  }

  /** Soundness: every result is a file (never a directory) named `filename`. */
  lemma SearchSound(directory: Option<VirtualFile>, filename: string, excludes: set<string>)
    ensures forall k :: 0 <= k < |SearchResults(directory, filename, excludes)| ==>
              SearchResults(directory, filename, excludes)[k].File? &&
              SearchResults(directory, filename, excludes)[k].name == filename
  {
    if directory.Some? && directory.value.Directory? {
      SearchIsNamedReachable(directory.value.children, filename, excludes);
      ReachableAreFiles(directory.value.children, excludes);
    }
  }

  lemma {:induction false} NamedComplete(files: seq<VirtualFile>, filename: string, k: nat)
    requires k < |files| && files[k].name == filename
    ensures files[k] in Named(files, filename)
  {
    if k > 0 {
      NamedComplete(files[1..], filename, k - 1);
    }
  }

  /** Completeness: every reachable file named `filename` is among the results. */
  lemma SearchComplete(children: seq<VirtualFile>, filename: string, excludes: set<string>, k: nat)
    requires k < |ReachableFiles(children, excludes)| && ReachableFiles(children, excludes)[k].name == filename
    ensures ReachableFiles(children, excludes)[k] in SearchChildren(children, filename, excludes)
  {
    SearchIsNamedReachable(children, filename, excludes);
    NamedComplete(ReachableFiles(children, excludes), filename, k);
  }

  /** A root that is absent or not a directory gives no results. */
  lemma NonDirectoryRoot(directory: Option<VirtualFile>, filename: string, excludes: set<string>)
    requires directory.None? || directory.value.File?
    ensures SearchResults(directory, filename, excludes) == []
  {
  }

  lemma {:induction false} SearchChildrenAppend(a: seq<VirtualFile>, b: seq<VirtualFile>, filename: string, excludes: set<string>)
    ensures SearchChildren(a + b, filename, excludes) == SearchChildren(a, filename, excludes) + SearchChildren(b, filename, excludes)
  {
    if a == [] {
      assert a + b == b;
    } else {
      assert (a + b)[1..] == a[1..] + b;
      SearchChildrenAppend(a[1..], b, filename, excludes);
    }
  }

  /** Whatever a hidden or excluded directory holds, the results are the same: the walk never looks inside it. */
  lemma SkippedSubtreeIgnored(before: seq<VirtualFile>, name: string, inside: seq<VirtualFile>, after: seq<VirtualFile>,
                              filename: string, excludes: set<string>)
    requires StartsWith(name, ".") || name in excludes
    ensures SearchChildren(before + [Directory(name, inside)] + after, filename, excludes)
         == SearchChildren(before + after, filename, excludes)
  {
    var d := Directory(name, inside);
    SearchChildrenAppend(before + [d], after, filename, excludes);
    SearchChildrenAppend(before, [d], filename, excludes);
    SearchChildrenAppend(before, after, filename, excludes);
    assert SearchChildren([d], filename, excludes) == [];
  }

  /** The hidden-name rule is for directories only: a file named ".sptids" at the top level is found. */
  lemma HiddenFileMatches(text: string)
    ensures SearchResults(Some(Directory("project", [File(".sptids", text)])), ".sptids", DEFAULT_EXCLUDES)
         == [File(".sptids", text)]
  {
    var f := File(".sptids", text);
    assert [f][1..] == [];
    assert VisitChild(f, ".sptids", DEFAULT_EXCLUDES) == [f];
    assert SearchChildren([f], ".sptids", DEFAULT_EXCLUDES) == [f];
  }

  /** Files inside `node_modules` and `.git` are not found; one in `src` is. */
  lemma ExcludedExample(text: string)
    ensures SearchResults(Some(Directory("project", [
                Directory("node_modules", [File(".sptids", text)]),
                Directory(".git", [File(".sptids", text)]),
                Directory("src", [File(".sptids", text)])])), ".sptids", DEFAULT_EXCLUDES)
         == [File(".sptids", text)]
  {
    var f := File(".sptids", text);
    var src := Directory("src", [f]);
    var git := Directory(".git", [f]);
    var nm := Directory("node_modules", [f]);
    assert StartsWith(git.name, ".");
    assert "src"[0] != '.' && |"src"| != |"build"| && |"src"| != |"node_modules"|;
    assert "src" != "out" && "src" != "dist" by {
      assert "src"[0] != "out"[0] && "src"[0] != "dist"[0];
    }
    assert Enters(src, DEFAULT_EXCLUDES);
    assert !Enters(nm, DEFAULT_EXCLUDES) && !Enters(git, DEFAULT_EXCLUDES);
    assert [f][1..] == [];
    assert VisitChild(f, ".sptids", DEFAULT_EXCLUDES) == [f];
    assert SearchChildren([f], ".sptids", DEFAULT_EXCLUDES) == [f];
    assert VisitChild(src, ".sptids", DEFAULT_EXCLUDES) == [f];
    assert SearchChildren([src], ".sptids", DEFAULT_EXCLUDES) == [f] by {
      assert [src][1..] == [];
    }
    var cs := [nm, git, src];
    assert cs[1..] == [git, src] && cs[1..][1..] == [src];
    assert VisitChild(git, ".sptids", DEFAULT_EXCLUDES) == [] && VisitChild(nm, ".sptids", DEFAULT_EXCLUDES) == [];
    assert SearchChildren([git, src], ".sptids", DEFAULT_EXCLUDES)
        == VisitChild(git, ".sptids", DEFAULT_EXCLUDES) + SearchChildren([src], ".sptids", DEFAULT_EXCLUDES);
    assert SearchChildren(cs, ".sptids", DEFAULT_EXCLUDES)
        == VisitChild(nm, ".sptids", DEFAULT_EXCLUDES) + SearchChildren([git, src], ".sptids", DEFAULT_EXCLUDES);
  }

  // ---------------------------------------------------------------------------
  // The walk as written: a loop over children that recurses into directories
  // and appends matches to the result list
  // ---------------------------------------------------------------------------

  /** The nested `searchRecursively(dir)`: appends to `result` what the children of `dir` contribute. */
  method SearchRecursively(dir: VirtualFile, filename: string, excludes: set<string>, acc: seq<VirtualFile>)
      returns (result: seq<VirtualFile>)
    requires dir.Directory?
    ensures result == acc + SearchChildren(dir.children, filename, excludes)
    decreases dir
  {
    result := acc;
    var children := dir.children;
    for i := 0 to |children|
      invariant result == acc + SearchChildren(children[..i], filename, excludes)
    {
      var child := children[i];
      assert children[..i + 1] == children[..i] + [child];
      SearchChildrenAppend(children[..i], [child], filename, excludes);
      assert SearchChildren([child], filename, excludes) == VisitChild(child, filename, excludes) by {
        assert [child][1..] == [];
      }
      if child.Directory? {
        if !StartsWith(child.name, ".") && child.name !in excludes {
          result := SearchRecursively(child, filename, excludes, result);
        }
      } else if child.name == filename {
        result := result + [child];
      }
    }
    assert children[..|children|] == children;
  }

  /** `findAllFilesRecursively`. */
  method FindAllFilesRecursively(directory: Option<VirtualFile>, filename: string, excludes: set<string>)
      returns (result: seq<VirtualFile>)
    ensures result == SearchResults(directory, filename, excludes)
  {
    if directory.None? || !directory.value.Directory? {
      return [];
    }
    result := SearchRecursively(directory.value, filename, excludes, []);
  }
}
