/** The output diff of a stopped workspace: what it means, and the check at the data boundary. */
module OutputDiff {
  import opened Paths
  import opened Files
  import opened Trees
  import opened Records

  type DiffFiles = map<Path, Option<Descriptor>>

  const MAX_ENTRIES := 2048
  const MAX_SUMMARY_CHARS := 16000

  /** What the tree holds under a path, as a descriptor. */
  function Current(t: Tree, p: Path): Option<Descriptor> {
    if p in t && t[p].RegularFile? then Some(Describe(t[p].data, t[p].executable)) else None
  }

  function Original(frozen: FrozenFiles, p: Path): Option<Descriptor> {
    if p in frozen then Some(frozen[p]) else None
  }

  /** The files a result may mention: the selected inputs, and the regular files below `out`. */
  function Scope(t: Tree, frozen: FrozenFiles): set<Path> {
    frozen.Keys + set p | p in t && UnderOut(p) && t[p].RegularFile?
  }

  /** The diff: every path in scope whose descriptor differs; None means deletion. */
  function Diff(t: Tree, frozen: FrozenFiles): DiffFiles {
    map p | p in Scope(t, frozen) && Current(t, p) != Original(frozen, p) :: Current(t, p)
  }

  /** Laying a diff over the frozen files. */
  function Overlay(frozen: FrozenFiles, diff: DiffFiles): FrozenFiles {
    map p | p in frozen.Keys + diff.Keys && (p in diff ==> diff[p].Some?) ::
      if p in diff then diff[p].value else frozen[p]
  }

  /** The regular files of the tree at selected paths and below `out`. */
  function ResultFiles(t: Tree, frozen: FrozenFiles): FrozenFiles {
    map p | p in Scope(t, frozen) && Current(t, p).Some? :: Current(t, p).value
  }

  /** The diff reproduces the tree. */
  lemma OverlayIsTheTree(t: Tree, frozen: FrozenFiles)
    ensures Overlay(frozen, Diff(t, frozen)) == ResultFiles(t, frozen)
  {
    var a, b := Overlay(frozen, Diff(t, frozen)), ResultFiles(t, frozen);
    forall p ensures (p in a <==> p in b) && (p in a ==> a[p] == b[p]) {
      if p in Scope(t, frozen) && p !in Diff(t, frozen) {
        assert Current(t, p) == Original(frozen, p);
      }
    }
  }

  /** The diff is the least one: whatever else reproduces the tree says at least as much, and
      says the same about the paths of the diff. */
  lemma DiffIsMinimal(t: Tree, frozen: FrozenFiles, other: DiffFiles)
    requires Overlay(frozen, other) == ResultFiles(t, frozen)
    ensures Diff(t, frozen).Keys <= other.Keys
    ensures forall p | p in Diff(t, frozen) :: other[p] == Diff(t, frozen)[p]
  {
    forall p | p in Diff(t, frozen) ensures p in other && other[p] == Diff(t, frozen)[p] {
      var a, b := Overlay(frozen, other), ResultFiles(t, frozen);
      assert p in a <==> p in b;
      if p in b { assert a[p] == b[p]; }
    }
  }

  lemma UntouchedAt(frozen: FrozenFiles, p: Path)
    requires ValidFiles(frozen)
    ensures p in Diff(TreeOf(frozen), frozen) <==> p in frozen && frozen[p].base64.spare != 0
  {
    TreeNodes(frozen, p);
    if p in frozen {
      assert p == p[..|p|] && OnTheWay(frozen.Keys, p);
      SameBytes(frozen[p], Current(TreeOf(frozen), p).value);
    }
  }

  /** The frozen files whose base64 text has spare bits. */
  function NonCanonical(frozen: FrozenFiles): set<Path> {
    set p | p in frozen && frozen[p].base64.Encoded? && frozen[p].base64.spare != 0
  }

  /** Collecting an untouched materialized tree yields exactly its non-canonical files. */
  lemma UntouchedKeys(frozen: FrozenFiles)
    requires ValidFiles(frozen)
    ensures Diff(TreeOf(frozen), frozen).Keys == NonCanonical(frozen)
  {
    forall p ensures p in Diff(TreeOf(frozen), frozen) <==> p in NonCanonical(frozen) { UntouchedAt(frozen, p); }
  }

  lemma EmptyByKeys(diff: DiffFiles)
    ensures diff == map[] <==> diff.Keys == {}
  {
  }

  /** An untouched materialized tree has the empty diff exactly when every frozen base64 text is
      canonical; otherwise the diff names the non-canonical files and nothing else. */
  lemma UntouchedDiff(frozen: FrozenFiles)
    requires ValidFiles(frozen)
    ensures Diff(TreeOf(frozen), frozen).Keys == NonCanonical(frozen)
    ensures Diff(TreeOf(frozen), frozen) == map[] <==> forall p | p in frozen :: frozen[p].base64.spare == 0
  {
    UntouchedKeys(frozen);
    EmptyByKeys(Diff(TreeOf(frozen), frozen));
    if NonCanonical(frozen) == {} {
      forall p | p in frozen ensures frozen[p].base64.spare == 0 { assert p !in NonCanonical(frozen); }
    }
  }

  // ---- `validate` -----------------------------------------------------------------------------

  /** The files that exist after laying the output over the input. */
  function Written(frozen: FrozenFiles, output: DiffFiles): set<Path> {
    set p | p in frozen.Keys + output.Keys && (p in output ==> output[p].Some?)
  }

  predicate EntryAllowed(frozen: FrozenFiles, output: DiffFiles, p: Path)
    requires p in output
  {
    && LegalPath(p)
    && (p in frozen || (output[p].Some? && UnderOut(p)))
    && (output[p].Some? ==> FileBytes(output[p].value).Some?)
  }

  ghost predicate ValidOutput(frozen: FrozenFiles, output: DiffFiles) {
    && |output| <= MAX_FILES
    && (forall p | p in output :: EntryAllowed(frozen, output, p))
    && Sum(output, output.Keys) <= MAX_TOTAL_BYTES
    && PrefixFree(Written(frozen, output))
  }

  /** The loop state of `validate`: `rest` is still to be looked at. */
  ghost predicate OutputChecked(frozen: FrozenFiles, output: DiffFiles, rest: set<Path>, total: int, written: set<Path>) {
    && rest <= output.Keys
    && total == Sum(output, output.Keys - rest) <= MAX_TOTAL_BYTES
    && (forall p | p in output && p !in rest :: EntryAllowed(frozen, output, p))
    && written == set p | p in frozen.Keys + output.Keys &&
                         (if p in output && p !in rest then output[p].Some? else p in frozen)
  }

  lemma OutputCheckOne(frozen: FrozenFiles, output: DiffFiles, rest: set<Path>, total: int, written: set<Path>, p: Path)
    requires OutputChecked(frozen, output, rest, total, written) && p in rest && EntryAllowed(frozen, output, p)
    ensures var more := total + Size(output[p]);
            && (more <= MAX_TOTAL_BYTES ==>
                  OutputChecked(frozen, output, rest - {p}, more, if output[p].Some? then written + {p} else written - {p}))
            && (more > MAX_TOTAL_BYTES ==> !ValidOutput(frozen, output))
  {
    SumAdd(output, output.Keys - rest, p);
    assert output.Keys - (rest - {p}) == (output.Keys - rest) + {p};
  }

  /** At the end of the first loop, `written` is the set of files the output leaves. */
  lemma OutputAllChecked(frozen: FrozenFiles, output: DiffFiles, total: int, written: set<Path>)
    requires OutputChecked(frozen, output, {}, total, written) && |output| <= MAX_FILES
    ensures ValidOutput(frozen, output) <==> PrefixFree(written)
  {
    assert output.Keys - {} == output.Keys;
    assert written == Written(frozen, output);
  }

  lemma OutputUnchecked(frozen: FrozenFiles, output: DiffFiles)
    ensures OutputChecked(frozen, output, output.Keys, 0, frozen.Keys)
  {
    assert output.Keys - output.Keys == {};
  }

  predicate MetadataOk(summaryChars: nat, exitCode: int) {
    summaryChars <= MAX_SUMMARY_CHARS && 0 <= exitCode <= 255
  }

  /** What an accepted output can do, without looking at how it was checked: laid over the input it adds
      files below `out` only and deletes input files only, and the result is again a set of acceptable
      files none of which is a directory on the way to another. */
  lemma AcceptedStaysInScope(frozen: FrozenFiles, output: DiffFiles)
    requires ValidFiles(frozen) && ValidOutput(frozen, output)
    ensures forall p | p in Overlay(frozen, output) :: p in frozen || (|p| >= 2 && p[0] == "out")
    ensures forall p | p in output && output[p].None? :: p in frozen
    ensures forall p, n | p in Overlay(frozen, output) && 0 < n < |p| :: p[..n] !in Overlay(frozen, output)
    ensures forall p | p in Overlay(frozen, output) :: LegalPath(p) && FileBytes(Overlay(frozen, output)[p]).Some?
    ensures |output| <= 100 && Sum(output, output.Keys) <= 2097152
  {
    assert Overlay(frozen, output).Keys == Written(frozen, output);
    forall p | p in Overlay(frozen, output)
      ensures (p in frozen || UnderOut(p)) && LegalPath(p) && FileBytes(Overlay(frozen, output)[p]).Some?
    {
      if p in output { assert EntryAllowed(frozen, output, p); }
    }
    forall p | p in output && output[p].None? ensures p in frozen { assert EntryAllowed(frozen, output, p); }
  }

  /** `validate`: the input, the metadata, and both loops, in whatever order the mapping yields the
      files. */
  method ValidateOutput(frozen: FrozenFiles, output: DiffFiles, summaryChars: nat, exitCode: int) returns (ok: bool)
    ensures ok <==> ValidFiles(frozen) && MetadataOk(summaryChars, exitCode) && ValidOutput(frozen, output)
    ensures ok ==> summaryChars <= 16000 && 0 <= exitCode <= 255 && |output| <= 100
    ensures ok ==> forall p | p in Overlay(frozen, output) :: p in frozen || (|p| >= 2 && p[0] == "out")
    ensures ok ==> forall p | p in output && output[p].None? :: p in frozen
    ensures ok ==> forall p, n | p in Overlay(frozen, output) && 0 < n < |p| :: p[..n] !in Overlay(frozen, output)
    ensures ok ==> forall p | p in Overlay(frozen, output) :: FileBytes(Overlay(frozen, output)[p]).Some?
  {
    ok := Validate(frozen);
    if !ok || !MetadataOk(summaryChars, exitCode) || |output| > MAX_FILES { return false; }
    var total: int, written := 0, frozen.Keys;
    var rest := output.Keys;
    OutputUnchecked(frozen, output);
    while rest != {}
      invariant OutputChecked(frozen, output, rest, total, written)
      decreases |rest|
    {
      var p :| p in rest;
      if !EntryAllowed(frozen, output, p) { return false; }
      OutputCheckOne(frozen, output, rest, total, written, p);
      total := total + Size(output[p]);
      if total > MAX_TOTAL_BYTES { return false; }
      written := if output[p].Some? then written + {p} else written - {p};
      rest := rest - {p};
    }
    OutputAllChecked(frozen, output, total, written);
    ok := Separate(written);
    if ok { AcceptedStaysInScope(frozen, output); }
  }

  predicate Separate(files: set<Path>)
    ensures Separate(files) <==> PrefixFree(files)
  {
    forall p | p in files :: forall n | 0 < n < |p| :: p[..n] !in files
  }
}
