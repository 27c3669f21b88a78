/** A private workspace directory, and `materialize`: a validated file map becomes a tree. */
module Trees {
  import opened Paths
  import opened Files
  import opened Records

  /** `Special` is anything `_regular` refuses: a symbolic link, a device, a second hard link. */
  datatype Node = Directory | RegularFile(data: Data, executable: bool) | Special

  type Tree = map<Path, Node>

  function Parent(p: Path): Path
    requires |p| > 0
  {
    p[..|p| - 1]
  }

  /** Every node but the root sits in a directory. */
  ghost predicate WellFormed(t: Tree) {
    && [] in t && t[[]].Directory?
    && forall p | p in t && |p| > 0 :: Parent(p) in t && t[Parent(p)].Directory?
  }

  /** In a tree every ancestor of a node is a directory. */
  lemma {:induction false} AncestorsAreDirectories(t: Tree, p: Path, n: nat)
    requires WellFormed(t) && p in t && n < |p|
    ensures p[..n] in t && t[p[..n]].Directory?
    decreases |p|
  {
    if n < |p| - 1 {
      AncestorsAreDirectories(t, Parent(p), n);
      assert Parent(p)[..n] == p[..n];
    }
  }

  /** The files of any tree are prefix-free. */
  lemma TreeFilesArePrefixFree(t: Tree, files: set<Path>)
    requires WellFormed(t)
    requires forall p | p in files :: p in t && t[p].RegularFile?
    ensures PrefixFree(files)
  {
    forall p, n | p in files && 0 < n < |p| ensures p[..n] !in files {
      AncestorsAreDirectories(t, p, n);
    }
  }

  // ---- the specification of `materialize` -----------------------------------------------------

  function Prefixes(files: set<Path>): set<Path> {
    set p, n | p in files && 0 <= n <= |p| :: p[..n]
  }

  function NodeOf(f: Descriptor): Node {
    RegularFile(if FileBytes(f).Some? then FileBytes(f).value else [], f.mode.Executable?)
  }

  /** The tree of a file map: its files, and a directory for every proper prefix. */
  function TreeOf(files: FrozenFiles): Tree {
    map p | p in Prefixes(files.Keys) + {[]} :: if p in files then NodeOf(files[p]) else Directory
  }

  /** Reading a tree back as a file map. */
  function Flatten(t: Tree): map<Path, Node> {
    map p | p in t && !t[p].Directory? :: t[p]
  }

  lemma TreeOfIsWellFormed(files: FrozenFiles)
    requires PrefixFree(files.Keys) && [] !in files
    ensures WellFormed(TreeOf(files))
  {
    var t := TreeOf(files);
    forall p | p in t && |p| > 0 ensures Parent(p) in t && t[Parent(p)].Directory? {
      var f, n :| f in files && 0 <= n <= |f| && p == f[..n];
      assert Parent(p) == f[..n - 1];
      assert f[..n - 1] in Prefixes(files.Keys);
    }
  }

  /** The round trip: flattening the tree of a file map gives exactly that map. */
  lemma FlattenTreeOf(files: FrozenFiles)
    requires [] !in files
    ensures Flatten(TreeOf(files)) == map p | p in files :: NodeOf(files[p])
  {
    forall p | p in files ensures p in TreeOf(files) {
      assert p == p[..|p|];
    }
  }

  /** The tree with the prefixes of `p` up to length `k` added as directories. */
  function Grown(t: Tree, p: Path, k: nat): Tree
    requires k <= |p|
  {
    if k == 0 then t
    else
      var before := Grown(t, p, k - 1);
      if p[..k] in before then before else before[p[..k] := Directory]
  }

  lemma {:induction false} GrownNodes(t: Tree, p: Path, k: nat, q: Path)
    requires k <= |p|
    ensures q in Grown(t, p, k) <==> q in t || (0 < |q| <= k && q == p[..|q|])
    ensures q in t ==> Grown(t, p, k)[q] == t[q]
    ensures q in Grown(t, p, k) && q !in t ==> Grown(t, p, k)[q] == Directory
  {
    if k > 0 { GrownNodes(t, p, k - 1, q); }
  }

  // ---- the code -------------------------------------------------------------------------------

  class Workspace {
    var tree: Tree

    constructor ()
      ensures tree == map[[] := Directory]
    {
      tree := map[[] := Directory];
    }

    /** mkdir under an open directory: an existing entry is reported, not replaced. */
    method Mkdir(at: Path, name: string) returns (exists_: bool)
      modifies this
      ensures exists_ <==> at + [name] in old(tree)
      ensures tree == if at + [name] in old(tree) then old(tree) else old(tree)[at + [name] := Directory]
    {
      exists_ := at + [name] in tree;
      if !exists_ { tree := tree[at + [name] := Directory]; }
    }

    /** open with O_CREAT | O_EXCL, then write, chmod and fsync. */
    method CreateExclusive(at: Path, name: string, node: Node) returns (ok: bool)
      modifies this
      ensures ok <==> at + [name] !in old(tree)
      ensures tree == if ok then old(tree)[at + [name] := node] else old(tree)
    {
      ok := at + [name] !in tree;
      if ok { tree := tree[at + [name] := node]; }
    }

    /** The walk of one file: make or open each directory on the way, then create the file. It
        fails exactly when a directory on the way, or the file, is already something else. */
    method Place(parts: Path, node: Node) returns (ok: bool)
      requires |parts| > 0
      modifies this
      ensures ok <==>
        && (forall n | 0 < n < |parts| && parts[..n] in old(tree) :: old(tree)[parts[..n]].Directory?)
        && parts !in old(tree)
      ensures ok ==> tree == Grown(old(tree), parts, |parts| - 1)[parts := node]
    {
      var k := 0;
      assert parts[..0] == [];
      while k < |parts| - 1
        invariant 0 <= k <= |parts| - 1
        invariant tree == Grown(old(tree), parts, k)
        invariant forall n | 0 < n <= k && parts[..n] in old(tree) :: old(tree)[parts[..n]].Directory?
      {
        var at := parts[..k];
        assert at + [parts[k]] == parts[..k + 1];
        var _ := Mkdir(at, parts[k]);
        GrownNodes(old(tree), parts, k + 1, parts[..k + 1]);
        if !tree[at + [parts[k]]].Directory? { return false; }   // O_DIRECTORY
        k := k + 1;
      }
      assert parts[..k] + [parts[k]] == parts;
      GrownNodes(old(tree), parts, k, parts);
      ok := CreateExclusive(parts[..k], parts[k], node);
    }

    /** `materialize` into a fresh directory. On every validated map there is no collision,
        whatever order the files are visited in, and the tree is exactly the tree of the map. */
    method Materialize(files: FrozenFiles) returns (ok: bool)
      requires tree == map[[] := Directory]
      modifies this
      ensures ok <==> ValidFiles(files)
      ensures ok ==> tree == TreeOf(files)
      ensures !ok ==> tree == old(tree)
    {
      ok := Validate(files);
      if !ok { return; }
      EmptyTree(files);
      var rest := files.Keys;
      while rest != {}
        invariant rest <= files.Keys
        invariant tree == TreeOf(Without(files, rest))
        decreases |rest|
      {
        var p :| p in rest;
        assert LegalPath(p);
        PlacingIsFree(files, rest, p);
        var placed := Place(p, NodeOf(files[p]));
        assert placed;
        PlacedTree(files, rest, p);
        rest := rest - {p};
      }
      assert Without(files, {}) == files;
    }
  }

  function Without(files: FrozenFiles, rest: set<Path>): FrozenFiles {
    map p | p in files && p !in rest :: files[p]
  }

  lemma EmptyTree(files: FrozenFiles)
    ensures TreeOf(Without(files, files.Keys)) == map[[] := Directory]
  {
    assert Without(files, files.Keys) == map[];
  }

  /** `q` is one of the files, a directory on the way to one, or the root. */
  ghost predicate OnTheWay(files: set<Path>, q: Path) {
    q == [] || exists f :: f in files && |q| <= |f| && q == f[..|q|]
  }

  lemma TreeNodes(files: FrozenFiles, q: Path)
    ensures q in TreeOf(files) <==> OnTheWay(files.Keys, q)
    ensures q in TreeOf(files) ==> TreeOf(files)[q] == if q in files then NodeOf(files[q]) else Directory
  {
    if OnTheWay(files.Keys, q) && q != [] {
      var f :| f in files.Keys && |q| <= |f| && q == f[..|q|];
      assert f[..|q|] in Prefixes(files.Keys);
    }
    if q in Prefixes(files.Keys) {
      var f, n :| f in files.Keys && 0 <= n <= |f| && q == f[..n];
      assert |q| == n && q == f[..|q|];
    }
  }

  /** No file placed so far is on the way to `p`, and `p` is on the way to none. */
  lemma PlacingIsFree(files: FrozenFiles, rest: set<Path>, p: Path)
    requires PrefixFree(files.Keys) && p in rest && rest <= files.Keys && |p| > 0
    ensures var t := TreeOf(Without(files, rest));
            && (forall n | 0 < n < |p| && p[..n] in t :: t[p[..n]].Directory?)
            && p !in t
  {
    var done := Without(files, rest);
    TreeNodes(done, p);
    forall f | f in done.Keys && |p| <= |f| ensures p != f[..|p|] {
      if |p| == |f| { assert f[..|p|] == f; } else { assert f[..|p|] !in files; }
    }
    forall n | 0 < n < |p| && p[..n] in TreeOf(done) ensures TreeOf(done)[p[..n]].Directory? {
      TreeNodes(done, p[..n]);
    }
  }

  lemma PlacedTree(files: FrozenFiles, rest: set<Path>, p: Path)
    requires PrefixFree(files.Keys) && p in rest && rest <= files.Keys && |p| > 0
    ensures Grown(TreeOf(Without(files, rest)), p, |p| - 1)[p := NodeOf(files[p])] == TreeOf(Without(files, rest - {p}))
  {
    var a := Grown(TreeOf(Without(files, rest)), p, |p| - 1)[p := NodeOf(files[p])];
    var b := TreeOf(Without(files, rest - {p}));
    PlacingIsFree(files, rest, p);
    forall q ensures (q in a <==> q in b) && (q in a ==> a[q] == b[q]) {
      PlacedNode(files, rest, p, q);
    }
  }

  lemma PlacedNode(files: FrozenFiles, rest: set<Path>, p: Path, q: Path)
    requires PrefixFree(files.Keys) && p in rest && rest <= files.Keys && |p| > 0
    ensures var a := Grown(TreeOf(Without(files, rest)), p, |p| - 1)[p := NodeOf(files[p])];
            var b := TreeOf(Without(files, rest - {p}));
            (q in a <==> q in b) && (q in a ==> a[q] == b[q])
  {
    var done, more := Without(files, rest), Without(files, rest - {p});
    assert more.Keys == done.Keys + {p};
    GrownNodes(TreeOf(done), p, |p| - 1, q);
    TreeNodes(done, q);
    TreeNodes(more, q);
    if |q| == |p| && q == p[..|q|] { assert q == p; }
    if 0 < |q| < |p| && q == p[..|q|] { assert p[..|q|] !in files; }
  }
}
