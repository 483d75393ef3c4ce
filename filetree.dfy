/**
 * `buildFileTree`: the tree `list_files` draws from a list of slash-separated
 * paths. Paths without a slash become leaves of the root, in input order;
 * the others are grouped by their first segment, and each group becomes a
 * subtree, built the same way from the rest of its paths, in sorted order.
 */
module FileTree {
  import opened Text

  datatype Tree = Tree(root: string, children: seq<Node>)
  datatype Node = Leaf(name: string) | Subtree(tree: Tree)

  // ---------------------------------------------------------------------
  // Splitting a path at its first slash

  predicate Nested(p: string) {
    '/' in p
  }

  /** The first segment of a nested path. */
  function Head(p: string): string
    requires Nested(p)
  {
    p[..IndexOfChar(p, '/')]
  }

  /** What follows the first slash. */
  function Tail(p: string): (r: string)
    requires Nested(p)
    ensures |r| < |p|
  {
    p[IndexOfChar(p, '/') + 1..]
  }

  lemma HeadTail(p: string)
    requires Nested(p)
    ensures Head(p) + "/" + Tail(p) == p
  {
    Recompose(p, IndexOfChar(p, '/'));
  }

  // ---------------------------------------------------------------------
  // The grouping, as functions of the input list

  /** The paths without a slash, in input order. */
  function RootFiles(paths: seq<string>): (r: seq<string>)
  {
    if paths == [] then []
    else
      var p := paths[|paths| - 1];
      RootFiles(paths[..|paths| - 1]) + (if Nested(p) then [] else [p])
  }

  /** The paths whose first segment is `d`, in input order. */
  function Select(paths: seq<string>, d: string): (r: seq<string>)
  {
    if paths == [] then []
    else
      var p := paths[|paths| - 1];
      Select(paths[..|paths| - 1], d) + (if Nested(p) && Head(p) == d then [p] else [])
  }

  /** `dirMap[d]`: what follows the first slash, for the paths in group `d`. */
  function Group(paths: seq<string>, d: string): (r: seq<string>)
    ensures |r| == |Select(paths, d)|
  {
    if paths == [] then []
    else
      var p := paths[|paths| - 1];
      Group(paths[..|paths| - 1], d) + (if Nested(p) && Head(p) == d then [Tail(p)] else [])
  }

  /** The first segments, each once, in order of first appearance. */
  function DistinctHeads(paths: seq<string>): (r: seq<string>)
  {
    if paths == [] then []
    else
      var p := paths[|paths| - 1];
      var r := DistinctHeads(paths[..|paths| - 1]);
      if Nested(p) && Head(p) !in r then r + [Head(p)] else r
  }

  /** The subtree names: the first segments, sorted. */
  function Dirs(paths: seq<string>): seq<string> {
    SortStrings(DistinctHeads(paths))
  }

  function MaxLen(paths: seq<string>): (n: nat)
  {
    if paths == [] then 0
    else
      var m := MaxLen(paths[..|paths| - 1]);
      var p := paths[|paths| - 1];
      if |p| > m then |p| else m
  }

  /** `MaxLen` is the largest length in the list. */
  lemma {:induction false} MaxLenBounds(paths: seq<string>)
    ensures forall k :: 0 <= k < |paths| ==> |paths[k]| <= MaxLen(paths)
    ensures paths != [] ==> exists k :: 0 <= k < |paths| && |paths[k]| == MaxLen(paths)
  {
    if paths != [] {
      var init := paths[..|paths| - 1];
      var last := |paths| - 1;
      MaxLenBounds(init);
      assert forall k :: 0 <= k < |init| ==> paths[k] == init[k];
      if |paths[last]| <= MaxLen(init) && init != [] {
        var k :| 0 <= k < |init| && |init[k]| == MaxLen(init);
        assert |paths[k]| == MaxLen(paths);
      } else {
        assert |paths[last]| == MaxLen(paths);
      }
    }
  }

  /** Every element of `DistinctHeads` occurs once. */
  lemma {:induction false} DistinctHeadsOnce(paths: seq<string>)
    ensures forall x :: multiset(DistinctHeads(paths))[x] <= 1
  {
    if paths != [] {
      DistinctHeadsOnce(paths[..|paths| - 1]);
    }
  }

  function Leaves(files: seq<string>): (r: seq<Node>)
    ensures |r| == |files| && forall k :: 0 <= k < |files| ==> r[k] == Leaf(files[k])
  {
    if files == [] then [] else Leaves(files[..|files| - 1]) + [Leaf(files[|files| - 1])]
  }

  /** The tree `buildFileTree(root, paths)` returns. */
  function Build(root: string, paths: seq<string>): Tree
    decreases MaxLen(paths), 1, 0
  {
    Tree(root, Leaves(RootFiles(paths)) + Subtrees(paths, Dirs(paths)))
  }

  /** One subtree per name in `dirs`, each built from its group. */
  function Subtrees(paths: seq<string>, dirs: seq<string>): (r: seq<Node>)
    ensures |r| == |dirs|
    decreases MaxLen(paths), 0, |dirs|
  {
    if dirs == [] then []
    else
      var d := dirs[|dirs| - 1];
      var g := Group(paths, d);
      var sub := if g == [] then Tree(d, []) else (GroupShorter(paths, d); Build(d, g));
      Subtrees(paths, dirs[..|dirs| - 1]) + [Subtree(sub)]
  }

  /** The paths of a group are shorter than the longest input path. */
  lemma GroupShorter(paths: seq<string>, d: string)
    requires Group(paths, d) != []
    ensures MaxLen(Group(paths, d)) < MaxLen(paths)
  {
    var g := Group(paths, d);
    GroupTails(paths, d);
    MaxLenBounds(g);
    MaxLenBounds(paths);
    var k :| 0 <= k < |g| && |g[k]| == MaxLen(g);
    SelectFrom(paths, d, k);
  }

  /** A selected path is one of the inputs. */
  lemma {:induction false} SelectFrom(paths: seq<string>, d: string, k: nat)
    requires k < |Select(paths, d)|
    ensures exists i :: 0 <= i < |paths| && paths[i] == Select(paths, d)[k]
  {
    var init := paths[..|paths| - 1];
    if k < |Select(init, d)| {
      SelectFrom(init, d, k);
      var i :| 0 <= i < |init| && init[i] == Select(init, d)[k];
      assert paths[i] == init[i];
    } else {
      assert paths[|paths| - 1] == Select(paths, d)[k];
    }
  }

  /** A group holds the tails of the selected paths, position by position. */
  lemma {:induction false} GroupTails(paths: seq<string>, d: string)
    ensures forall k :: 0 <= k < |Group(paths, d)| ==>
      Nested(Select(paths, d)[k]) && Group(paths, d)[k] == Tail(Select(paths, d)[k])
  {
    if paths != [] {
      GroupTails(paths[..|paths| - 1], d);
    }
  }

  // ---------------------------------------------------------------------
  // The imperative builder

  /** The first loop of `buildFileTree`: root files in input order, and
      for each first segment the remainders of its paths. */
  method GroupByFirstSegment(paths: seq<string>)
    returns (rootFiles: seq<string>, dirMap: map<string, seq<string>>)
    ensures rootFiles == RootFiles(paths)
    ensures Grouped(dirMap, paths)
  {
    dirMap := map[];
    rootFiles := [];
    for i := 0 to |paths|
      invariant rootFiles == RootFiles(paths[..i])
      invariant Grouped(dirMap, paths[..i])
    {
      assert paths[..i + 1] == paths[..i] + [paths[i]];
      var path := paths[i];
      var parts := Split(path, '/');
      if |parts| == 1 {
        rootFiles := rootFiles + [path];
        GroupedRootFile(dirMap, paths[..i], path);
      } else {
        SplitFirst(path, '/', IndexOfChar(path, '/'));
        var dir := parts[0];
        var rest := Join(parts[1..], "/");
        assert dir == Head(path) && rest == Tail(path);
        var group := if dir in dirMap then dirMap[dir] else [];
        GroupedNested(dirMap, paths[..i], path);
        dirMap := dirMap[dir := group + [rest]];
      }
    }
    assert paths[..|paths|] == paths;
  }

  /** The keys of the directory map, in iteration order (any order), then sorted. */
  method SortedKeys(dirMap: map<string, seq<string>>) returns (dirs: seq<string>)
    ensures Sorted(dirs)
    ensures forall d :: multiset(dirs)[d] <= 1
    ensures forall d :: d in dirs <==> d in dirMap
  {
    dirs := [];
    var keys := dirMap.Keys;
    while keys != {}
      invariant forall d :: d in dirMap <==> d in keys || d in dirs
      invariant forall d :: d in keys ==> d !in dirs
      invariant forall d :: multiset(dirs)[d] <= 1
      decreases |keys|
    {
      var d :| d in keys;
      dirs := dirs + [d];
      keys := keys - {d};
    }
    var unsorted := dirs;
    SortStringsSpec(unsorted);
    dirs := SortStrings(dirs);
    forall d
      ensures multiset(dirs)[d] <= 1 && (d in dirs <==> d in unsorted)
    {
      assert d in dirs <==> d in multiset(dirs);
      assert d in unsorted <==> d in multiset(unsorted);
    }
  }

  /** `buildFileTree`: groups the paths, adds the root files as leaves, then
      one subtree per first segment in sorted order, built recursively. */
  method BuildFileTree(root: string, paths: seq<string>) returns (t: Tree)
    ensures t == Build(root, paths)
    decreases MaxLen(paths)
  {
    var rootFiles, dirMap := GroupByFirstSegment(paths);

    var children: seq<Node> := [];
    for k := 0 to |rootFiles|
      invariant children == Leaves(rootFiles[..k])
    {
      assert rootFiles[..k + 1][..k] == rootFiles[..k];
      children := children + [Leaf(rootFiles[k])];
    }
    assert rootFiles[..|rootFiles|] == rootFiles;

    var dirs := SortedKeys(dirMap);
    DistinctHeadsOnce(paths);
    SameElements(dirs, DistinctHeads(paths));
    SortStringsSpec(DistinctHeads(paths));
    SortedUnique(dirs, Dirs(paths));

    for k := 0 to |dirs|
      invariant children == Leaves(RootFiles(paths)) + Subtrees(paths, dirs[..k])
    {
      var d := dirs[k];
      DirIsHead(paths, d);
      HeadHasGroup(paths, d);
      GroupShorter(paths, d);
      SubtreesStep(paths, dirs, k);
      assert dirMap[d] == Group(paths, d);
      var sub := BuildFileTree(d, dirMap[d]);
      Associative(Leaves(RootFiles(paths)), Subtrees(paths, dirs[..k]), [Subtree(sub)]);
      children := children + [Subtree(sub)];
    }
    assert dirs[..|dirs|] == dirs;
    t := Tree(root, children);
  }

  /** `dirMap` holds, for each first segment seen so far, its group. */
  ghost predicate Grouped(dirMap: map<string, seq<string>>, paths: seq<string>) {
    (forall d :: d in dirMap <==> d in DistinctHeads(paths))
    && (forall d :: d in dirMap ==> dirMap[d] == Group(paths, d))
  }

  lemma GroupedRootFile(dirMap: map<string, seq<string>>, paths: seq<string>, p: string)
    requires Grouped(dirMap, paths) && !Nested(p)
    ensures Grouped(dirMap, paths + [p])
  {
    assert (paths + [p])[..|paths|] == paths;
  }

  lemma GroupedNested(dirMap: map<string, seq<string>>, paths: seq<string>, p: string)
    requires Grouped(dirMap, paths) && Nested(p)
    ensures var group := if Head(p) in dirMap then dirMap[Head(p)] else [];
      Grouped(dirMap[Head(p) := group + [Tail(p)]], paths + [p])
  {
    var h := Head(p);
    var group := if h in dirMap then dirMap[h] else [];
    var m := dirMap[h := group + [Tail(p)]];
    var ps := paths + [p];
    SnocNested(paths, p);
    GroupsAbsent(paths, dirMap.Keys);
    assert group == Group(paths, h);
    forall d
      ensures (d in m <==> d in DistinctHeads(ps)) && (d in m ==> m[d] == Group(ps, d))
    {
      if d != h {
        assert Group(ps, d) == Group(paths, d);
      }
    }
  }

  /** Appending a nested path: its group grows by its tail, and its head is
      added to the distinct heads when new. */
  lemma SnocNested(paths: seq<string>, p: string)
    requires Nested(p)
    ensures forall d :: Group(paths + [p], d) == Group(paths, d) + (if Head(p) == d then [Tail(p)] else [])
    ensures var r := DistinctHeads(paths);
      DistinctHeads(paths + [p]) == if Head(p) in r then r else r + [Head(p)]
  {
    assert (paths + [p])[..|paths|] == paths;
  }

  lemma DirIsHead(paths: seq<string>, d: string)
    requires d in Dirs(paths)
    ensures d in DistinctHeads(paths)
  {
    SortStringsSpec(DistinctHeads(paths));
    assert d in multiset(Dirs(paths));
  }

  lemma SubtreesStep(paths: seq<string>, dirs: seq<string>, k: nat)
    requires k < |dirs| && Group(paths, dirs[k]) != []
    ensures Subtrees(paths, dirs[..k + 1])
      == Subtrees(paths, dirs[..k]) + [Subtree(Build(dirs[k], Group(paths, dirs[k])))]
  {
    assert dirs[..k + 1][..k] == dirs[..k];
  }

  /** Names that are not first segments have empty groups. */
  lemma GroupsAbsent(paths: seq<string>, keys: set<string>)
    requires forall d :: d in keys <==> d in DistinctHeads(paths)
    ensures forall d :: d !in keys ==> Group(paths, d) == []
  {
    forall d | d !in keys
      ensures Group(paths, d) == []
    {
      NoHeadNoGroup(paths, d);
    }
  }

  lemma {:induction false} NoHeadNoGroup(paths: seq<string>, d: string)
    requires d !in DistinctHeads(paths)
    ensures Group(paths, d) == []
  {
    if paths != [] {
      NoHeadNoGroup(paths[..|paths| - 1], d);
    }
  }

  lemma {:induction false} HeadHasGroup(paths: seq<string>, d: string)
    requires d in DistinctHeads(paths)
    ensures Group(paths, d) != []
  {
    if paths != [] {
      var init := paths[..|paths| - 1];
      if d in DistinctHeads(init) {
        HeadHasGroup(init, d);
      }
    }
  }

  /** Two duplicate-free sequences with the same elements are permutations of each other. */
  lemma SameElements(a: seq<string>, b: seq<string>)
    requires forall x :: multiset(a)[x] <= 1
    requires forall x :: multiset(b)[x] <= 1
    requires forall x :: x in a <==> x in b
    ensures multiset(a) == multiset(b)
  {
    forall x
      ensures multiset(a)[x] == multiset(b)[x]
    {
      assert x in a <==> x in multiset(a);
      assert x in b <==> x in multiset(b);
    }
  }

  // ---------------------------------------------------------------------
  // The shape of the tree

  /** The root files come first, as leaves, in input order. */
  lemma BuildLeaves(root: string, paths: seq<string>)
    ensures var t := Build(root, paths);
      var files := RootFiles(paths);
      t.root == root && |t.children| == |files| + |Dirs(paths)|
      && forall i :: 0 <= i < |files| ==> t.children[i] == Leaf(files[i])
  {
    var t := Build(root, paths);
    var files := RootFiles(paths);
    var ls := Leaves(files);
    assert t.children == ls + Subtrees(paths, Dirs(paths));
    assert forall i :: 0 <= i < |files| ==> t.children[i] == ls[i];
  }

  /** After the leaves, one subtree per subtree name, built from its group. */
  lemma BuildSubtrees(root: string, paths: seq<string>, i: nat)
    requires i < |Dirs(paths)|
    ensures var t := Build(root, paths);
      var d := Dirs(paths)[i];
      var g := Group(paths, d);
      |RootFiles(paths)| + i < |t.children|
      && t.children[|RootFiles(paths)| + i] == Subtree(if g == [] then Tree(d, []) else Build(d, g))
  {
    var dirs := Dirs(paths);
    BuildChildren(root, paths);
    IndexAppend(Leaves(RootFiles(paths)), Subtrees(paths, dirs), i);
    SubtreesAt(paths, dirs, i);
  }

  lemma BuildChildren(root: string, paths: seq<string>)
    ensures Build(root, paths).children == Leaves(RootFiles(paths)) + Subtrees(paths, Dirs(paths))
  {
  }

  lemma IndexAppend<T>(a: seq<T>, b: seq<T>, i: nat)
    requires i < |b|
    ensures |a| + i < |a + b| && (a + b)[|a| + i] == b[i]
  {
  }

  /** The subtree names are sorted, each once. */
  lemma DirsSortedOnce(paths: seq<string>)
    ensures Sorted(Dirs(paths)) && forall x :: multiset(Dirs(paths))[x] <= 1
  {
    SortStringsSpec(DistinctHeads(paths));
    DistinctHeadsOnce(paths);
  }

  lemma {:induction false} SubtreesAt(paths: seq<string>, dirs: seq<string>, i: nat)
    requires i < |dirs|
    ensures var g := Group(paths, dirs[i]);
      Subtrees(paths, dirs)[i] == Subtree(if g == [] then Tree(dirs[i], []) else Build(dirs[i], g))
  {
    if i < |dirs| - 1 {
      SubtreesAt(paths, dirs[..|dirs| - 1], i);
    }
  }

  /** The root files are the inputs without a slash. */
  lemma {:induction false} RootFilesMembers(paths: seq<string>, x: string)
    ensures x in RootFiles(paths) <==> x in paths && !Nested(x)
  {
    if paths != [] {
      var init := paths[..|paths| - 1];
      assert paths == init + [paths[|paths| - 1]];
      RootFilesMembers(init, x);
    }
  }

  /** The subtree names are the first segments of the nested inputs. */
  lemma DirsMembers(paths: seq<string>, d: string)
    ensures d in Dirs(paths) <==> exists i :: 0 <= i < |paths| && Nested(paths[i]) && Head(paths[i]) == d
  {
    SortStringsSpec(DistinctHeads(paths));
    assert d in Dirs(paths) <==> d in multiset(Dirs(paths));
    assert d in DistinctHeads(paths) <==> d in multiset(DistinctHeads(paths));
    if d in DistinctHeads(paths) {
      HeadFrom(paths, d);
    }
    forall i | 0 <= i < |paths| && Nested(paths[i]) && Head(paths[i]) == d
      ensures d in DistinctHeads(paths)
    {
      HeadSeen(paths, i);
    }
  }

  lemma {:induction false} HeadFrom(paths: seq<string>, d: string)
    requires d in DistinctHeads(paths)
    ensures exists i :: 0 <= i < |paths| && Nested(paths[i]) && Head(paths[i]) == d
  {
    var init := paths[..|paths| - 1];
    if d in DistinctHeads(init) {
      HeadFrom(init, d);
      var i :| 0 <= i < |init| && Nested(init[i]) && Head(init[i]) == d;
      assert paths[i] == init[i];
    } else {
      assert Nested(paths[|paths| - 1]) && Head(paths[|paths| - 1]) == d;
    }
  }

  // ---------------------------------------------------------------------
  // Every input path yields exactly one leaf

  /** The full paths of a tree's leaves, below its root, child by child. */
  function LeafPaths(t: Tree): seq<string>
    decreases t, 1
  {
    NodePaths(t.children)
  }

  function NodePaths(ns: seq<Node>): seq<string>
    decreases ns, 0
  {
    if ns == [] then [] else NodePaths(ns[..|ns| - 1]) + PathsOf(ns[|ns| - 1])
  }

  function PathsOf(n: Node): seq<string>
    decreases n, 2
  {
    match n
    case Leaf(f) => [f]
    case Subtree(s) => Prefix(s.root, LeafPaths(s))
  }

  /** Each path, under directory `d`. */
  function Prefix(d: string, xs: seq<string>): (r: seq<string>)
    ensures |r| == |xs|
  {
    if xs == [] then [] else Prefix(d, xs[..|xs| - 1]) + [d + "/" + xs[|xs| - 1]]
  }

  /** The selected paths of each name in `dirs`, together. */
  function SumSelect(paths: seq<string>, dirs: seq<string>): multiset<string> {
    if dirs == [] then multiset{}
    else SumSelect(paths, dirs[..|dirs| - 1]) + multiset(Select(paths, dirs[|dirs| - 1]))
  }

  /** The tree of `buildFileTree` has one leaf per input path: the full paths
      of its leaves are a permutation of the input. */
  lemma {:induction false} EveryPathOneLeaf(root: string, paths: seq<string>)
    ensures multiset(LeafPaths(Build(root, paths))) == multiset(paths)
    decreases MaxLen(paths)
  {
    var rootFiles := RootFiles(paths);
    var dirs := Dirs(paths);
    forall i | 0 <= i < |dirs| && Group(paths, dirs[i]) != []
      ensures multiset(LeafPaths(Build(dirs[i], Group(paths, dirs[i]))))
        == multiset(Group(paths, dirs[i]))
    {
      GroupShorter(paths, dirs[i]);
      EveryPathOneLeaf(dirs[i], Group(paths, dirs[i]));
    }
    SubtreesPaths(paths, dirs);
    NodePathsAppend(Leaves(rootFiles), Subtrees(paths, dirs));
    LeavesPaths(rootFiles);
    DirsCoverHeads(paths);
    Partition(paths, dirs);
  }

  lemma {:induction false} NodePathsAppend(a: seq<Node>, b: seq<Node>)
    ensures NodePaths(a + b) == NodePaths(a) + NodePaths(b)
  {
    if b == [] {
      assert a + b == a;
    } else {
      var init := b[..|b| - 1];
      assert (a + b)[..|a + b| - 1] == a + init;
      NodePathsAppend(a, init);
    }
  }

  lemma {:induction false} LeavesPaths(files: seq<string>)
    ensures NodePaths(Leaves(files)) == files
  {
    if files != [] {
      var init := files[..|files| - 1];
      var ls := Leaves(files);
      assert ls[..|ls| - 1] == Leaves(init);
      LeavesPaths(init);
    }
  }

  /** The subtrees for `dirs` hold, with their directories in front, the
      groups of `dirs` together. */
  lemma {:induction false} SubtreesPaths(paths: seq<string>, dirs: seq<string>)
    requires forall i :: 0 <= i < |dirs| && Group(paths, dirs[i]) != [] ==>
      multiset(LeafPaths(Build(dirs[i], Group(paths, dirs[i])))) == multiset(Group(paths, dirs[i]))
    ensures multiset(NodePaths(Subtrees(paths, dirs))) == SumSelect(paths, dirs)
  {
    if dirs != [] {
      var init := dirs[..|dirs| - 1];
      var d := dirs[|dirs| - 1];
      var g := Group(paths, d);
      var sub := if g == [] then Tree(d, []) else Build(d, g);
      var ns := Subtrees(paths, dirs);
      assert ns == Subtrees(paths, init) + [Subtree(sub)];
      assert ns[..|ns| - 1] == Subtrees(paths, init);
      assert forall i :: 0 <= i < |init| ==> init[i] == dirs[i];
      SubtreesPaths(paths, init);
      SubtreePaths(paths, d, sub);
    }
  }

  /** The subtree named `d`, with `d` in front of its leaf paths, holds the
      paths of group `d`. */
  lemma SubtreePaths(paths: seq<string>, d: string, sub: Tree)
    requires sub == if Group(paths, d) == [] then Tree(d, []) else Build(d, Group(paths, d))
    requires Group(paths, d) != [] ==>
      multiset(LeafPaths(Build(d, Group(paths, d)))) == multiset(Group(paths, d))
    ensures multiset(PathsOf(Subtree(sub))) == multiset(Select(paths, d))
  {
    var g := Group(paths, d);
    if g == [] {
      assert LeafPaths(sub) == [];
    }
    PrefixPermutation(d, LeafPaths(sub), g);
    PrefixGroup(paths, d);
  }

  /** Putting a directory in front of each path keeps permutations. */
  lemma PrefixPermutation(d: string, a: seq<string>, b: seq<string>)
    requires multiset(a) == multiset(b)
    ensures multiset(Prefix(d, a)) == multiset(Prefix(d, b))
  {
    forall y
      ensures multiset(Prefix(d, a))[y] == multiset(Prefix(d, b))[y]
    {
      PrefixCount(d, a, y);
      PrefixCount(d, b, y);
    }
  }

  lemma {:induction false} PrefixCount(d: string, a: seq<string>, y: string)
    ensures multiset(Prefix(d, a))[y] ==
      if HasPrefix(y, d + "/") then multiset(a)[y[|d| + 1..]] else 0
  {
    if a != [] {
      var init := a[..|a| - 1];
      var x := a[|a| - 1];
      PrefixCount(d, init, y);
      assert a == init + [x];
      assert (d + "/" + x)[..|d| + 1] == d + "/";
      assert (d + "/" + x)[|d| + 1..] == x;
      if HasPrefix(y, d + "/") && y[|d| + 1..] == x {
        assert y == y[..|d| + 1] + y[|d| + 1..];
      }
    }
  }

  /** Putting a group's directory back in front of its remainders gives the
      selected paths. */
  lemma {:induction false} PrefixGroup(paths: seq<string>, d: string)
    ensures Prefix(d, Group(paths, d)) == Select(paths, d)
  {
    if paths != [] {
      var p := paths[|paths| - 1];
      var init := paths[..|paths| - 1];
      PrefixGroup(init, d);
      if Nested(p) && Head(p) == d {
        HeadTail(p);
        var g := Group(paths, d);
        assert g == Group(init, d) + [Tail(p)];
        assert g[..|g| - 1] == Group(init, d);
        assert Prefix(d, g) == Prefix(d, Group(init, d)) + [d + "/" + Tail(p)];
        assert Select(paths, d) == Select(init, d) + [p];
      } else {
        assert Group(paths, d) == Group(init, d);
        assert Select(paths, d) == Select(init, d);
      }
    }
  }

  /** Each first segment occurs once among the subtree names. */
  lemma DirsCoverHeads(paths: seq<string>)
    ensures forall i :: 0 <= i < |paths| && Nested(paths[i]) ==> multiset(Dirs(paths))[Head(paths[i])] == 1
  {
    SortStringsSpec(DistinctHeads(paths));
    DistinctHeadsOnce(paths);
    forall i | 0 <= i < |paths| && Nested(paths[i])
      ensures multiset(Dirs(paths))[Head(paths[i])] == 1
    {
      HeadSeen(paths, i);
    }
  }

  lemma {:induction false} HeadSeen(paths: seq<string>, i: nat)
    requires i < |paths| && Nested(paths[i])
    ensures Head(paths[i]) in DistinctHeads(paths)
  {
    var init := paths[..|paths| - 1];
    if i < |paths| - 1 {
      HeadSeen(init, i);
      assert init[i] == paths[i];
    }
  }

  /** The input splits into the root files and the groups of `dirs`, provided
      every first segment occurs in `dirs` once. */
  lemma Partition(paths: seq<string>, dirs: seq<string>)
    requires forall i :: 0 <= i < |paths| && Nested(paths[i]) ==> multiset(dirs)[Head(paths[i])] == 1
    ensures multiset(paths) == multiset(RootFiles(paths)) + SumSelect(paths, dirs)
  {
    forall x
      ensures multiset(paths)[x] == multiset(RootFiles(paths))[x] + SumSelect(paths, dirs)[x]
    {
      PartitionAt(paths, dirs, x);
    }
  }

  lemma PartitionAt(paths: seq<string>, dirs: seq<string>, x: string)
    requires forall i :: 0 <= i < |paths| && Nested(paths[i]) ==> multiset(dirs)[Head(paths[i])] == 1
    ensures multiset(paths)[x] == multiset(RootFiles(paths))[x] + SumSelect(paths, dirs)[x]
  {
    RootCount(paths, x);
    SumSelectCount(paths, dirs, x);
    if Nested(x) && x in paths {
      var i :| 0 <= i < |paths| && paths[i] == x;
      assert multiset(dirs)[Head(x)] == 1;
    }
  }

  /** How often a path occurs among the root files. */
  lemma {:induction false} RootCount(paths: seq<string>, x: string)
    ensures multiset(RootFiles(paths))[x] == if Nested(x) then 0 else multiset(paths)[x]
  {
    if paths != [] {
      var init := paths[..|paths| - 1];
      assert paths == init + [paths[|paths| - 1]];
      RootCount(init, x);
    }
  }

  /** How often a path occurs in the group of `d`. */
  lemma {:induction false} SelectCount(paths: seq<string>, d: string, x: string)
    ensures multiset(Select(paths, d))[x] == if Nested(x) && Head(x) == d then multiset(paths)[x] else 0
  {
    if paths != [] {
      var init := paths[..|paths| - 1];
      assert paths == init + [paths[|paths| - 1]];
      SelectCount(init, d, x);
    }
  }

  /** How often a path occurs in the groups of `dirs` together: never when
      it is not nested or not an input, and as often as in the input when its
      first segment occurs in `dirs` once. */
  lemma {:induction false} SumSelectCount(paths: seq<string>, dirs: seq<string>, x: string)
    ensures !Nested(x) || x !in paths ==> SumSelect(paths, dirs)[x] == 0
    ensures Nested(x) && multiset(dirs)[Head(x)] == 0 ==> SumSelect(paths, dirs)[x] == 0
    ensures Nested(x) && multiset(dirs)[Head(x)] == 1 ==> SumSelect(paths, dirs)[x] == multiset(paths)[x]
  {
    if dirs != [] {
      var init := dirs[..|dirs| - 1];
      var d := dirs[|dirs| - 1];
      assert dirs == init + [d];
      SumSelectCount(paths, init, x);
      SelectCount(paths, d, x);
    }
  }
}
