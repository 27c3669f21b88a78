/** `collect`: the bounded walk over a stopped workspace. It succeeds exactly on the trees it
    should, returns the diff, and its closing check can never refuse. */
module Collector {
  import opened Paths
  import opened Files
  import opened Trees
  import opened OutputDiff
  import opened Records

  const OUT: Path := ["out"]

  /** A file `_read_file` accepts. */
  predicate Readable(n: Node) {
    n.RegularFile? && |n.data| <= MAX_FILE_BYTES
  }

  /** A selected path `_selected` does not refuse. */
  predicate SelectedOk(t: Tree, p: Path) {
    && (forall n | 0 < n < |p| && p[..n] in t :: t[p[..n]].Directory?)
    && (p in t ==> Readable(t[p]))
  }

  /** The nodes strictly below a directory. */
  function Below(t: Tree, p: Path): set<Path> {
    set q | q in t && |q| > |p| && q[..|p|] == p
  }

  /** A node below `out` that the walk does not refuse. */
  predicate EntryOk(t: Tree, q: Path)
    requires q in t
  {
    LegalPath(q) && (t[q].Directory? || Readable(t[q]))
  }

  /** The directory the walk starts from, if there is one. */
  predicate HasOut(t: Tree) {
    OUT in t && t[OUT].Directory?
  }

  /** Exactly the workspaces whose output can be collected. */
  ghost predicate Acceptable(t: Tree, frozen: FrozenFiles) {
    && ValidFiles(frozen)
    && (forall p | p in frozen :: SelectedOk(t, p))
    && (OUT in t && !t[OUT].Directory? ==> OUT in frozen)
    && (HasOut(t) ==> OutOk(t))
    && DiffFits(Diff(t, frozen))
  }

  ghost predicate OutOk(t: Tree) {
    && (forall q {:trigger EntryOk(t, q)} | q in Below(t, OUT) :: EntryOk(t, q))
    && |Below(t, OUT)| <= MAX_ENTRIES
  }

  ghost predicate DiffFits(diff: DiffFiles) {
    |diff| <= MAX_FILES && Sum(diff, diff.Keys) <= MAX_TOTAL_BYTES
  }

  datatype Selection = Missing | Found(file: Descriptor) | Refused

  lemma MissingAncestor(t: Tree, p: Path, k: nat)
    requires WellFormed(t) && k < |p| && p[..k] !in t
    ensures p !in t
    ensures forall n | k <= n < |p| :: p[..n] !in t
  {
    if p in t { AncestorsAreDirectories(t, p, k); }
    forall n | k <= n < |p| ensures p[..n] !in t {
      assert p[..n][..k] == p[..k];
      if k < n && p[..n] in t { AncestorsAreDirectories(t, p[..n], k); }
    }
  }

  /** `_selected`: open the directories on the way one after the other, then read the file. */
  method Selected(t: Tree, p: Path) returns (r: Selection)
    requires WellFormed(t) && |p| > 0
    ensures r.Refused? <==> !SelectedOk(t, p)
    ensures !r.Refused? ==> Current(t, p) == (if r.Found? then Some(r.file) else None)
  {
    var k := 0;
    while k < |p| - 1
      invariant 0 <= k <= |p| - 1
      invariant p[..k] in t
      invariant forall n | 0 < n <= k :: p[..n] in t && t[p[..n]].Directory?
    {
      if p[..k + 1] !in t {
        MissingAncestor(t, p, k + 1);
        return Missing;
      }
      if !t[p[..k + 1]].Directory? { return Refused; }
      k := k + 1;
    }
    if p !in t { return Missing; }
    if !Readable(t[p]) { return Refused; }
    return Found(Describe(t[p].data, t[p].executable));
  }

  class Collector {
    const tree: Tree
    const frozen: FrozenFiles
    var files: DiffFiles
    var total: int
    var entries: int
    ghost const diff: DiffFiles
    ghost var visited: set<Path>

    constructor (tree: Tree, frozen: FrozenFiles)
      ensures this.tree == tree && this.frozen == frozen && diff == Diff(tree, frozen)
      ensures files == map[] && total == 0 && entries == 0 && visited == {}
    {
      this.tree := tree;
      this.frozen := frozen;
      diff := Diff(tree, frozen);
      files, total, entries, visited := map[], 0, 0, {};
    }

    /** So far: a part of the diff, its total, and the entries seen. */
    ghost predicate Valid()
      reads this
    {
      WellFormed(tree) && PartOf(diff, files, total) && Seen(tree, entries, visited)
    }

    /** What is known about the diff during the walk below `out`. */
    ghost predicate Walking()
      reads this
    {
      Valid() && HasOut(tree) && DiffBelow(tree, frozen, diff) && diff.Keys * frozen.Keys <= files.Keys
    }

    /** `add`: a file below `out` may also be a selected input. */
    method Add(p: Path, file: Option<Descriptor>) returns (ok: bool)
      requires Valid() && p in diff && diff[p] == file
      modifies this`files, this`total
      ensures ok ==> Valid() && files.Keys == old(files.Keys) + {p}
      ensures !ok ==> !DiffFits(diff)
    {
      if p in files {
        assert files.Keys == files.Keys + {p};
        return true;
      }
      OneMoreFile(diff, files, total, p);
      if |files| >= MAX_FILES { return false; }
      if total + Size(file) > MAX_TOTAL_BYTES { return false; }
      total := total + Size(file);
      files := files[p := file];
      return true;
    }

    /** `visit`: every entry of a directory. The selected files have been looked at before. */
    method Visit(p: Path) returns (ok: bool)
      requires Walking()
      requires p in tree && tree[p].Directory? && (p == OUT || p in Below(tree, OUT))
      requires visited !! Below(tree, p)
      modifies this`files, this`total, this`entries, this`visited
      ensures ok ==> Walking() && Walked(tree, diff, Below(tree, p), old(visited), old(files.Keys), visited, files.Keys)
      ensures !ok ==> !OutOk(tree) || !DiffFits(diff)
      decreases |Below(tree, p)|, 1
    {
      var rest := Children(tree, p);
      NothingCovered(tree, p);
      WalkedNothing(tree, diff, visited, files.Keys);
      while rest != {}
        invariant rest <= Children(tree, p) && Walking()
        invariant Walked(tree, diff, Covered(tree, p, rest), old(visited), old(files.Keys), visited, files.Keys)
        decreases |rest|
      {
        var q :| q in rest;
        ok := VisitChild(p, q, rest, old(visited), old(files.Keys));
        if !ok { return false; }
        rest := rest - {q};
      }
      AllCovered(tree, p);
      return true;
    }

    /** One child of the directory; those outside `rest` have been walked. */
    method VisitChild(p: Path, q: Path, ghost rest: set<Path>, ghost visited0: set<Path>, ghost files0: set<Path>) returns (ok: bool)
      requires Walking()
      requires p in tree && tree[p].Directory? && (p == OUT || p in Below(tree, OUT))
      requires visited0 !! Below(tree, p) && rest <= Children(tree, p) && q in rest
      requires Walked(tree, diff, Covered(tree, p, rest), visited0, files0, visited, files.Keys)
      modifies this`files, this`total, this`entries, this`visited
      ensures ok ==> Walking() && Walked(tree, diff, Covered(tree, p, rest - {q}), visited0, files0, visited, files.Keys)
      ensures !ok ==> !OutOk(tree) || !DiffFits(diff)
      decreases |Below(tree, p)|, 0
    {
      NextChild(tree, p, rest, q, visited0);
      ghost var visited1, files1 := visited, files.Keys;
      ok := Enter(q);
      if ok {
        WalkedMore(tree, diff, Covered(tree, p, rest), {q} + Below(tree, q), visited0, files0,
                   visited1, files1, visited, files.Keys);
      }
    }

    /** The loop body of `visit`: count the entry, check its name, then walk or read it. */
    method Enter(q: Path) returns (ok: bool)
      requires Walking()
      requires q in Below(tree, OUT)
      requires q !in visited && visited !! Below(tree, q)
      modifies this`files, this`total, this`entries, this`visited
      ensures ok ==> Walking() && Walked(tree, diff, {q} + Below(tree, q), old(visited), old(files.Keys), visited, files.Keys)
      ensures !ok ==> !OutOk(tree) || !DiffFits(diff)
      decreases |Below(tree, q)|, 2
    {
      OneMoreEntry(tree, entries, visited, q);
      entries := entries + 1;
      visited := visited + {q};
      if entries > MAX_ENTRIES { return false; }
      if !EntryOk(tree, q) { return false; }
      if tree[q].Directory? {
        NotBelowItself(tree, q);
        ghost var visited1, files1 := visited, files.Keys;
        ok := Visit(q);
        if ok { DirectoryWalked(tree, diff, q, old(visited), files1, visited, files.Keys); }
      } else {
        ok := Leaf(q, old(visited));
      }
    }

    /** A readable file of the walk is taken when it differs from its selected original. */
    method Leaf(q: Path, ghost visited0: set<Path>) returns (ok: bool)
      requires Walking()
      requires q in Below(tree, OUT) && q in tree && !tree[q].Directory? && EntryOk(tree, q) && visited == visited0 + {q}
      modifies this`files, this`total
      ensures ok ==> Walking() && Walked(tree, diff, {q} + Below(tree, q), visited0, old(files.Keys), visited, files.Keys)
      ensures !ok ==> !DiffFits(diff)
    {
      LeafIsBare(tree, q);
      var file := Describe(tree[q].data, tree[q].executable);
      ok := true;
      if Some(file) != Original(frozen, q) { ok := Add(q, Some(file)); }
      if ok { LeafWalked(tree, diff, q, visited0, old(files.Keys), visited, files.Keys); }
    }
  }

  // ---- bookkeeping of the walk ----------------------------------------------------------------

  /** The diff below `out`: readable files that differ from their selected original, and perhaps
      directories where a selected file should be. */
  ghost predicate DiffBelow(t: Tree, frozen: FrozenFiles, diff: DiffFiles) {
    forall q {:trigger q in diff} | q in Below(t, OUT) ::
      && (t[q].RegularFile? ==>
            (q in diff <==> Some(Describe(t[q].data, t[q].executable)) != Original(frozen, q))
            && (q in diff ==> diff[q] == Some(Describe(t[q].data, t[q].executable))))
      && (t[q].Directory? && q in diff ==> q in frozen)
  }

  /** A walk over `nodes` saw each of them, and took exactly those that differ. */
  ghost predicate Walked(t: Tree, diff: DiffFiles, nodes: set<Path>, visited0: set<Path>, files0: set<Path>,
                         visited1: set<Path>, files1: set<Path>)
  {
    && nodes <= t.Keys
    && visited1 == visited0 + nodes
    && files1 == files0 + diff.Keys * nodes
    && EntriesOk(t, nodes)
  }

  ghost predicate EntriesOk(t: Tree, nodes: set<Path>)
    requires nodes <= t.Keys
  {
    forall q {:trigger EntryOk(t, q)} | q in nodes :: EntryOk(t, q)
  }

  lemma WalkedNothing(t: Tree, diff: DiffFiles, visited: set<Path>, files: set<Path>)
    ensures Walked(t, diff, {}, visited, files, visited, files)
  {
  }

  lemma WalkedMore(t: Tree, diff: DiffFiles, nodes: set<Path>, more: set<Path>, visited0: set<Path>, files0: set<Path>,
                   visited1: set<Path>, files1: set<Path>, visited2: set<Path>, files2: set<Path>)
    requires Walked(t, diff, nodes, visited0, files0, visited1, files1)
    requires Walked(t, diff, more, visited1, files1, visited2, files2)
    ensures Walked(t, diff, nodes + more, visited0, files0, visited2, files2)
  {
  }

  /** A directory differs only where a selected file should be, and that was taken before. */
  lemma DirectoryWalked(t: Tree, diff: DiffFiles, q: Path, visited0: set<Path>, files0: set<Path>,
                        visited1: set<Path>, files1: set<Path>)
    requires q in t && EntryOk(t, q) && (q in diff ==> q in files0)
    requires Walked(t, diff, Below(t, q), visited0 + {q}, files0, visited1, files1)
    ensures Walked(t, diff, {q} + Below(t, q), visited0, files0, visited1, files1)
  {
  }

  lemma LeafWalked(t: Tree, diff: DiffFiles, q: Path, visited0: set<Path>, files0: set<Path>,
                   visited1: set<Path>, files1: set<Path>)
    requires q in t && EntryOk(t, q) && Below(t, q) == {} && visited1 == visited0 + {q}
    requires files1 == if q in diff then files0 + {q} else files0
    ensures Walked(t, diff, {q} + Below(t, q), visited0, files0, visited1, files1)
  {
  }

  lemma StillUnseen(visited0: set<Path>, covered: set<Path>, below: set<Path>, q: Path, belowQ: set<Path>)
    requires visited0 !! below && q in below && belowQ <= below && q !in covered && covered !! belowQ
    ensures q !in visited0 + covered && (visited0 + covered) !! belowQ
  {
  }

  lemma NotBelowItself(t: Tree, q: Path)
    ensures q !in Below(t, q)
  {
  }

  /** Some of a diff, and its total. */
  ghost predicate PartOf(diff: DiffFiles, files: DiffFiles, total: int) {
    && files.Keys <= diff.Keys
    && (forall p | p in files :: files[p] == diff[p])
    && |files| <= MAX_FILES
    && total == Sum(diff, files.Keys) <= MAX_TOTAL_BYTES
  }

  ghost predicate Seen(t: Tree, entries: int, visited: set<Path>) {
    entries == |visited| <= MAX_ENTRIES && visited <= Below(t, OUT)
  }

  lemma Smaller(a: set<Path>, b: set<Path>, p: Path)
    requires a <= b && p in b && p !in a
    ensures |a| + 1 == |a + {p}| <= |b|
  {
    Cardinality(a + {p}, b);
  }

  lemma OneMoreFile(diff: DiffFiles, files: DiffFiles, total: int, p: Path)
    requires PartOf(diff, files, total) && p in diff && p !in files
    ensures var more := total + Size(diff[p]);
            && (|files| >= MAX_FILES || more > MAX_TOTAL_BYTES ==> !DiffFits(diff))
            && (|files| < MAX_FILES && more <= MAX_TOTAL_BYTES ==> PartOf(diff, files[p := diff[p]], more))
            && files[p := diff[p]].Keys == files.Keys + {p}
  {
    SumAdd(diff, files.Keys, p);
    Smaller(files.Keys, diff.Keys, p);
    var more := files[p := diff[p]];
    assert more.Keys == files.Keys + {p};
    assert |more| == |more.Keys|;
    assert |files| == |files.Keys|;
    assert |diff| == |diff.Keys|;
  }

  lemma OneMoreEntry(t: Tree, entries: int, visited: set<Path>, q: Path)
    requires Seen(t, entries, visited) && q in Below(t, OUT) && q !in visited
    ensures entries + 1 > MAX_ENTRIES ==> !OutOk(t)
    ensures entries + 1 <= MAX_ENTRIES ==> Seen(t, entries + 1, visited + {q})
  {
    Smaller(visited, Below(t, OUT), q);
  }

  lemma {:induction false} Cardinality(a: set<Path>, b: set<Path>)
    requires a <= b
    ensures |a| <= |b|
  {
    if a != {} {
      var p :| p in a;
      Cardinality(a - {p}, b - {p});
    }
  }

  function Children(t: Tree, p: Path): set<Path> {
    set q | q in t && |q| == |p| + 1 && q[..|p|] == p
  }

  /** The nodes below `p` that are a child outside `rest`, or below one. */
  function Covered(t: Tree, p: Path, rest: set<Path>): set<Path> {
    set q | q in t && |q| > |p| && q[..|p|] == p && q[..|p| + 1] !in rest
  }

  lemma NothingCovered(t: Tree, p: Path)
    requires WellFormed(t)
    ensures Covered(t, p, Children(t, p)) == {}
  {
    assert Covered(t, p, Children(t, p)) == set q | q in Below(t, p) && q[..|p| + 1] !in Children(t, p);
    forall q | q in Below(t, p) ensures q[..|p| + 1] in Children(t, p) {
      if |q| > |p| + 1 { AncestorsAreDirectories(t, q, |p| + 1); } else { assert q[..|p| + 1] == q; }
      assert q[..|p| + 1][..|p|] == q[..|p|];
    }
  }

  lemma AllCovered(t: Tree, p: Path)
    ensures Covered(t, p, {}) == Below(t, p)
  {
  }

  lemma ChildIsBelow(t: Tree, p: Path, q: Path)
    requires WellFormed(t) && HasOut(t) && (p == OUT || p in Below(t, OUT)) && q in Children(t, p)
    ensures q in Below(t, OUT) && q in Below(t, p) && UnderOut(q)
    ensures Below(t, q) < Below(t, p) && |Below(t, q)| < |Below(t, p)|
  {
    assert q[..|p|] == p;
    assert q[..1] == p[..1] == OUT;
    assert q[0] == q[..1][0];
    forall r | r in Below(t, q) ensures r in Below(t, p) {
      assert r[..|p|] == r[..|q|][..|p|];
    }
    assert q !in Below(t, q);
    Smaller(Below(t, q), Below(t, p), q);
  }

  lemma CoverOne(t: Tree, p: Path, rest: set<Path>, q: Path)
    requires q in rest && rest <= Children(t, p)
    ensures Covered(t, p, rest - {q}) == Covered(t, p, rest) + ({q} + Below(t, q))
    ensures q !in Covered(t, p, rest) && Covered(t, p, rest) !! Below(t, q)
  {
    assert |q| == |p| + 1 && q[..|p| + 1] == q;
    forall r | r in t && |r| > |p| && r[..|p|] == p ensures r[..|p| + 1] == q <==> r == q || r in Below(t, q) {
      if r in Below(t, q) { assert r[..|q|] == q; }
      if r[..|p| + 1] == q && |r| == |p| + 1 { assert r == r[..|p| + 1]; }
    }
    forall r | r in Below(t, q) ensures r[..|p|] == p {
      assert r[..|p|] == r[..|q|][..|p|];
    }
  }

  /** What makes the next child of a walk fit to be entered. */
  lemma NextChild(t: Tree, p: Path, rest: set<Path>, q: Path, visited0: set<Path>)
    requires WellFormed(t) && HasOut(t) && (p == OUT || p in Below(t, OUT)) && rest <= Children(t, p) && q in rest
    requires visited0 !! Below(t, p)
    ensures q in Below(t, OUT) && |Below(t, q)| < |Below(t, p)|
    ensures Covered(t, p, rest - {q}) == Covered(t, p, rest) + ({q} + Below(t, q))
    ensures q !in visited0 + Covered(t, p, rest) && (visited0 + Covered(t, p, rest)) !! Below(t, q)
  {
    ChildIsBelow(t, p, q);
    CoverOne(t, p, rest, q);
    StillUnseen(visited0, Covered(t, p, rest), Below(t, p), q, Below(t, q));
  }

  /** Nothing is below a file. */
  lemma LeafIsBare(t: Tree, q: Path)
    requires WellFormed(t) && q in t && !t[q].Directory?
    ensures Below(t, q) == {}
  {
    forall r | r in Below(t, q) ensures false {
      AncestorsAreDirectories(t, r, |q|);
    }
  }

  // ---- `collect` ------------------------------------------------------------------------------

  /** The diff that the walk below `out` relies on. */
  lemma DiffBelowOut(t: Tree, frozen: FrozenFiles)
    requires WellFormed(t)
    ensures DiffBelow(t, frozen, Diff(t, frozen))
  {
    forall q | q in Below(t, OUT) ensures |q| >= 2 && q[0] == "out" {
      assert q[..1][0] == q[0];
    }
  }

  /** The whole diff: selected paths, and below `out`. */
  lemma DiffIsCovered(t: Tree, frozen: FrozenFiles, files: set<Path>)
    requires WellFormed(t) && files <= Diff(t, frozen).Keys
    requires Diff(t, frozen).Keys * frozen.Keys <= files
    requires HasOut(t) ==> Diff(t, frozen).Keys * Below(t, OUT) <= files
    ensures files == Diff(t, frozen).Keys
  {
    forall p | p in Diff(t, frozen) ensures p in files {
      if p !in frozen {
        assert UnderOut(p) && p[..1] == OUT;
        AncestorsAreDirectories(t, p, 1);
      }
    }
  }

  lemma DiffEntryAllowed(t: Tree, frozen: FrozenFiles, p: Path)
    requires WellFormed(t) && ValidFiles(frozen) && p in Diff(t, frozen)
    requires p in frozen ==> SelectedOk(t, p)
    requires p !in frozen ==> p in Below(t, OUT) && EntryOk(t, p)
    ensures EntryAllowed(frozen, Diff(t, frozen), p)
  {
    if Diff(t, frozen)[p].Some? { DescriptionsAreAccepted(t[p].data, t[p].executable); }
  }

  lemma OutsideFrozenIsBelowOut(t: Tree, frozen: FrozenFiles, p: Path)
    requires WellFormed(t) && p in Diff(t, frozen) && p !in frozen
    ensures HasOut(t) && p in Below(t, OUT)
  {
    assert p[..1] == OUT;
    AncestorsAreDirectories(t, p, 1);
  }

  lemma WrittenIsInTree(t: Tree, frozen: FrozenFiles, p: Path)
    requires p in Written(frozen, Diff(t, frozen))
    ensures p in t && t[p].RegularFile?
  {
    if p !in Diff(t, frozen) { assert Current(t, p) == Original(frozen, p); }
  }

  /** The files that exist after laying the diff over the input are the tree's, so the closing
      check finds them prefix-free, in scope, and within every bound. */
  lemma ClosingCheckAccepts(t: Tree, frozen: FrozenFiles)
    requires WellFormed(t) && Acceptable(t, frozen)
    ensures ValidOutput(frozen, Diff(t, frozen))
  {
    var diff := Diff(t, frozen);
    assert forall p | p in diff :: EntryAllowed(frozen, diff, p) by {
      forall p | p in diff ensures EntryAllowed(frozen, diff, p) {
        if p !in frozen {
          OutsideFrozenIsBelowOut(t, frozen, p);
          assert EntryOk(t, p);
        }
        DiffEntryAllowed(t, frozen, p);
      }
    }
    var written := Written(frozen, diff);
    assert PrefixFree(written) by {
      forall p | p in written ensures p in t && t[p].RegularFile? { WrittenIsInTree(t, frozen, p); }
      TreeFilesArePrefixFree(t, written);
    }
  }

  lemma InScopeIsPlain(t: Tree, frozen: FrozenFiles, p: Path)
    requires WellFormed(t) && Acceptable(t, frozen) && p in t && (p in frozen || UnderOut(p))
    ensures Readable(t[p]) || (t[p].Directory? && p !in frozen)
    ensures UnderOut(p) ==> LegalPath(p)
  {
    if p in frozen { assert SelectedOk(t, p); }
    if UnderOut(p) {
      assert p[..1] == OUT;
      AncestorsAreDirectories(t, p, 1);
      assert EntryOk(t, p);
    }
  }

  /** What an acceptable workspace is and what its diff says, name by name: every selected name is
      absent or a regular file, there are only directories and regular files below `out`, no file is
      too big, and laying the diff over the input gives exactly these files with their bytes and modes. */
  lemma AcceptableIsPlain(t: Tree, frozen: FrozenFiles, p: Path)
    requires WellFormed(t) && Acceptable(t, frozen)
    ensures p in t && (p in frozen || (|p| >= 2 && p[0] == "out")) ==>
              (t[p].RegularFile? && |t[p].data| <= 1048576) || (t[p].Directory? && p !in frozen)
    ensures p in t && |p| >= 2 && p[0] == "out" ==> LegalPath(p)
    ensures var after := Overlay(frozen, Diff(t, frozen));
            && (p in after <==> p in t && t[p].RegularFile? && (p in frozen || (|p| >= 2 && p[0] == "out")))
            && (p in after ==> FileBytes(after[p]) == Some(t[p].data) && (after[p].mode == Executable <==> t[p].executable))
  {
    if p in t && (p in frozen || UnderOut(p)) { InScopeIsPlain(t, frozen, p); }
    OverlayIsTheTree(t, frozen);
    if p in Overlay(frozen, Diff(t, frozen)) { DescriptionsAreAccepted(t[p].data, t[p].executable); }
  }

  /** The selected half of `collect`: `rest` is still to be looked at. */
  ghost predicate SelectedSoFar(t: Tree, frozen: FrozenFiles, diff: DiffFiles, rest: set<Path>, files: set<Path>) {
    && rest <= frozen.Keys
    && files == diff.Keys * (frozen.Keys - rest)
    && forall p | p in frozen && p !in rest :: SelectedOk(t, p)
  }

  lemma SelectedStep(t: Tree, frozen: FrozenFiles, diff: DiffFiles, rest: set<Path>, p: Path, before: set<Path>, after: set<Path>)
    requires SelectedSoFar(t, frozen, diff, rest, before) && p in rest && SelectedOk(t, p)
    requires after == if p in diff then before + {p} else before
    ensures SelectedSoFar(t, frozen, diff, rest - {p}, after)
  {
  }

  /** The selected files, each compared with its frozen original. */
  method CollectSelected(c: Collector) returns (ok: bool)
    requires c.Valid() && c.files == map[] && c.visited == {} && c.diff == Diff(c.tree, c.frozen)
    requires forall p | p in c.frozen :: |p| > 0
    modifies c`files, c`total
    ensures ok ==> c.Valid() && c.diff.Keys * c.frozen.Keys <= c.files.Keys
    ensures ok ==> forall p | p in c.frozen :: SelectedOk(c.tree, p)
    ensures !ok ==> !DiffFits(c.diff) || exists p | p in c.frozen :: !SelectedOk(c.tree, p)
  {
    var rest := c.frozen.Keys;
    while rest != {}
      invariant c.Valid() && SelectedSoFar(c.tree, c.frozen, c.diff, rest, c.files.Keys)
      decreases |rest|
    {
      var p :| p in rest;
      var current := Selected(c.tree, p);
      if current.Refused? { return false; }
      var file := if current.Found? then Some(current.file) else None;
      SelectedDiffers(c.tree, c.frozen, p);
      ghost var before := c.files.Keys;
      if file != Some(c.frozen[p]) {
        var added := c.Add(p, file);
        if !added { return false; }
      }
      SelectedStep(c.tree, c.frozen, c.diff, rest, p, before, c.files.Keys);
      rest := rest - {p};
    }
    return true;
  }

  /** Both halves together are the whole diff. */
  lemma CollectedAll(t: Tree, frozen: FrozenFiles, files: DiffFiles, total: int)
    requires WellFormed(t) && ValidFiles(frozen) && PartOf(Diff(t, frozen), files, total)
    requires Diff(t, frozen).Keys * frozen.Keys <= files.Keys
    requires forall p | p in frozen :: SelectedOk(t, p)
    requires OUT in t && !t[OUT].Directory? ==> OUT in frozen
    requires HasOut(t) ==> OutOk(t) && Diff(t, frozen).Keys * Below(t, OUT) <= files.Keys
    ensures files == Diff(t, frozen) && Acceptable(t, frozen) && ValidOutput(frozen, files)
  {
    DiffIsCovered(t, frozen, files.Keys);
    assert files == Diff(t, frozen);
    assert |files| == |Diff(t, frozen)|;
    ClosingCheckAccepts(t, frozen);
  }

  lemma WalkedOut(t: Tree, diff: DiffFiles, files0: set<Path>, visited1: set<Path>, files1: set<Path>)
    requires Walked(t, diff, Below(t, OUT), {}, files0, visited1, files1) && |visited1| <= MAX_ENTRIES
    ensures OutOk(t) && diff.Keys * Below(t, OUT) <= files1
  {
    assert visited1 == Below(t, OUT);
  }

  /** `collect`. It returns the diff on exactly the acceptable workspaces; `validate`, called last,
      never refuses what the traversal accepted. */
  method Collect(t: Tree, frozen: FrozenFiles, summaryChars: nat, exitCode: int) returns (result: Option<DiffFiles>)
    requires WellFormed(t)
    ensures result.Some? <==> Acceptable(t, frozen) && MetadataOk(summaryChars, exitCode)
    ensures result.Some? ==> result.value == Diff(t, frozen) && ValidOutput(frozen, result.value)
  {
    var valid := Validate(frozen);
    if !valid || !MetadataOk(summaryChars, exitCode) { return None; }
    var c := new Collector(t, frozen);
    SumNothing(c.diff);
    forall p | p in frozen ensures |p| > 0 { assert LegalPath(p); }
    var ok := CollectSelected(c);
    if !ok { return None; }
    if OUT in t && !t[OUT].Directory? && OUT !in frozen { return None; }
    if HasOut(t) {
      DiffBelowOut(t, frozen);
      ghost var selected := c.files.Keys;
      ok := c.Visit(OUT);
      if !ok { return None; }
      WalkedOut(t, c.diff, selected, c.visited, c.files.Keys);
    }
    CollectedAll(t, frozen, c.files, c.total);
    ok := ValidateOutput(frozen, c.files, summaryChars, exitCode);
    assert ok;
    return Some(c.files);
  }

  lemma SumNothing(diff: DiffFiles)
    ensures Sum(diff, {}) == 0
  {
  }

  lemma SelectedDiffers(t: Tree, frozen: FrozenFiles, p: Path)
    requires p in frozen
    ensures p in Diff(t, frozen) <==> Current(t, p) != Some(frozen[p])
    ensures p in Diff(t, frozen) ==> Diff(t, frozen)[p] == Current(t, p)
  {
  }
}
