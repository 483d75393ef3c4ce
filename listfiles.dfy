/**
 * The `list_files` tool: the listing of a directory, cleaned, sorted and
 * drawn as a tree. Running `git ls-files` and walking the directory are
 * abstract: a parameter gives what they produced.
 */
module ListFilesTool {
  import opened Wrappers
  import opened Text
  import opened FileTree
  import opened Tools

  /** What listing the directory produced: the output of `git ls-files`, the
      files a directory walk found, or the walk's error. */
  datatype Listing = GitListed(output: string) | Walked(files: seq<string>) | WalkFailed(error: string)

  /** The directory `list_files` lists: "." unless a path is given. */
  function ListDir(path: string): string {
    if path == "" then "." else path
  }

  /** The name shown at the root of the tree. */
  function RootName(dir: string): (r: string)
    ensures dir == "." ==> r == "Project"
    ensures dir != "." ==> r == dir
  {
    if dir == "." then "Project" else dir
  }

  /** The lines of the listing before cleaning. */
  function ListedLines(l: Listing): seq<string>
    requires !l.WalkFailed?
  {
    if l.GitListed? then Split(l.output, '\n') else l.files
  }

  /** `ListFiles`: lists the directory (`list` stands for `git ls-files` with
      its fallback walk), cleans and sorts the lines, and builds the tree. */
  method ListFiles(path: string, list: string -> Listing) returns (r: Result<Tree>)
    ensures list(ListDir(path)).WalkFailed? ==> r == Fail(list(ListDir(path)).error)
    ensures !list(ListDir(path)).WalkFailed? ==>
      r == Ok(Build(RootName(ListDir(path)), SortStrings(Clean(ListedLines(list(ListDir(path)))))))
  {
    var dir := "." ;
    if path != "" {
      dir := path;
    }
    var listing := list(dir);
    var fileList: seq<string>;
    match listing {
      case GitListed(output) =>
        fileList := Split(output, '\n');
      case Walked(files) =>
        fileList := files;
      case WalkFailed(e) =>
        return Fail(e);
    }
    var cleanList := CleanAndSort(fileList);
    var root := dir;
    if root == "." {
      root := "Project";
    }
    var t := BuildFileTree(root, cleanList);
    return Ok(t);
  }

  /** The tree of `list_files` has one leaf per kept line: its leaf paths are
      exactly the trimmed lines that pass the filter, each as often as listed. */
  lemma ListedLeaves(dir: string, lines: seq<string>, x: string)
    ensures var t := Build(RootName(dir), SortStrings(Clean(lines)));
      multiset(LeafPaths(t)) == multiset(Clean(lines))
      && (x in LeafPaths(t) <==> Keep(x) && x in TrimAll(lines))
  {
    var t := Build(RootName(dir), SortStrings(Clean(lines)));
    EveryPathOneLeaf(RootName(dir), SortStrings(Clean(lines)));
    SortStringsSpec(Clean(lines));
    CleanMembers(lines, x);
    assert x in LeafPaths(t) <==> x in multiset(LeafPaths(t));
    assert x in Clean(lines) <==> x in multiset(Clean(lines));
  }
}
