/** Collecting a workspace nobody touched: when that succeeds, and what it returns. */
module Untouched {
  import opened Paths
  import opened Files
  import opened Trees
  import opened OutputDiff
  import opened Collector
  import opened Records

  /** The entries `visit` will count below `out`, from the file names alone: every name below `out`
      and every directory on the way to it. */
  function OutEntries(files: set<Path>): set<Path> {
    set p, n | p in files && 1 < n <= |p| && p[0] == "out" :: p[..n]
  }

  lemma EntriesAreBelowOut(frozen: FrozenFiles)
    requires ValidFiles(frozen)
    ensures Below(TreeOf(frozen), OUT) == OutEntries(frozen.Keys)
  {
    forall q ensures q in Below(TreeOf(frozen), OUT) <==> q in OutEntries(frozen.Keys) {
      TreeNodes(frozen, q);
      if q in OutEntries(frozen.Keys) {
        var p, n :| p in frozen.Keys && 1 < n <= |p| && p[0] == "out" && q == p[..n];
        assert |q| == n && q == p[..|q|] && q[..1] == [q[0]] == OUT;
      }
      if q in Below(TreeOf(frozen), OUT) {
        assert q[..1][0] == q[0];
        var p :| p in frozen.Keys && |q| <= |p| && q == p[..|q|];
        assert p[..|q|] in OutEntries(frozen.Keys);
      }
    }
  }

  // ---- everything but the number of entries is in order ------------------------------------------

  /** Joining a part of a path is no longer than joining the path. */
  lemma {:induction false} PrefixIsShorter(p: Path, n: nat)
    requires 0 < n <= |p|
    ensures |Join(p[..n])| <= |Join(p)|
  {
    if n == |p| {
      assert p[..n] == p;
    } else if n > 1 {
      PrefixIsShorter(p[1..], n - 1);
      assert p[..n][1..] == p[1..][..n - 1];
    }
  }

  lemma PrefixIsLegal(p: Path, n: nat)
    requires LegalPath(p) && 0 < n <= |p|
    ensures LegalPath(p[..n])
  {
    PrefixIsShorter(p, n);
    forall i | 0 <= i < n ensures LegalPart(p[..n][i]) { assert LegalPart(p[i]); }
  }

  lemma EntryIsOk(frozen: FrozenFiles, q: Path)
    requires ValidFiles(frozen) && q in TreeOf(frozen) && q != []
    ensures EntryOk(TreeOf(frozen), q)
  {
    TreeNodes(frozen, q);
    var f :| f in frozen.Keys && |q| <= |f| && q == f[..|q|];
    PrefixIsLegal(f, |q|);
    if q in frozen { assert FileBytes(frozen[q]).Some?; }
  }

  lemma SelectedIsOk(frozen: FrozenFiles, p: Path)
    requires ValidFiles(frozen) && p in frozen
    ensures SelectedOk(TreeOf(frozen), p)
  {
    var t := TreeOf(frozen);
    TreeNodes(frozen, p);
    forall n | 0 < n < |p| && p[..n] in t ensures t[p[..n]].Directory? {
      TreeNodes(frozen, p[..n]);
      assert p[..n] !in frozen;
    }
  }

  lemma DiffIsSmall(frozen: FrozenFiles)
    requires ValidFiles(frozen)
    ensures DiffFits(Diff(TreeOf(frozen), frozen))
  {
    var diff := Diff(TreeOf(frozen), frozen);
    UntouchedKeys(frozen);
    assert diff.Keys <= frozen.Keys;
    Cardinality(diff.Keys, frozen.Keys);
    assert |diff| == |diff.Keys| && |frozen| == |frozen.Keys|;
    forall p | p in diff ensures Size(diff[p]) == Size(AsOptions(frozen)[p]) {
      TreeNodes(frozen, p);
      assert FileBytes(frozen[p]).Some?;
    }
    SameSizes(diff, AsOptions(frozen), diff.Keys);
    SumMonotone(AsOptions(frozen), diff.Keys, frozen.Keys);
  }

  lemma {:induction false} SameSizes(a: DiffFiles, b: DiffFiles, keys: set<Path>)
    requires keys <= a.Keys && keys <= b.Keys && forall p | p in keys :: Size(a[p]) == Size(b[p])
    ensures Sum(a, keys) == Sum(b, keys)
    decreases |keys|
  {
    if keys != {} {
      var p :| p in keys;
      SumAny(a, keys, p);
      SumAny(b, keys, p);
      SameSizes(a, b, keys - {p});
    }
  }

  /** A valid map's own tree can be collected exactly when it has at most 2048 entries below `out`:
      directories count as well, and nothing in `validate` bounds them. */
  lemma AcceptableIff(frozen: FrozenFiles)
    requires ValidFiles(frozen)
    ensures Acceptable(TreeOf(frozen), frozen) <==> |OutEntries(frozen.Keys)| <= MAX_ENTRIES
  {
    var t := TreeOf(frozen);
    EntriesAreBelowOut(frozen);
    DiffIsSmall(frozen);
    forall p | p in frozen ensures SelectedOk(t, p) { SelectedIsOk(frozen, p); }
    forall q | q in Below(t, OUT) ensures EntryOk(t, q) { EntryIsOk(frozen, q); }
    TreeNodes(frozen, OUT);
    NothingWithoutOut(frozen);
  }

  lemma NothingWithoutOut(frozen: FrozenFiles)
    requires ValidFiles(frozen)
    ensures HasOut(TreeOf(frozen)) || Below(TreeOf(frozen), OUT) == {}
  {
    var t := TreeOf(frozen);
    assert forall p | p in frozen :: LegalPath(p);
    TreeOfIsWellFormed(frozen);
    if Below(t, OUT) != {} {
      var q :| q in Below(t, OUT);
      AncestorsAreDirectories(t, q, 1);
    }
  }

  /** `materialize`, no task, `collect`: it returns exactly for the valid maps with at most 2048
      entries below `out`, and then exactly the files whose base64 text is not canonical. */
  method CollectUntouched(frozen: FrozenFiles, summaryChars: nat, exitCode: int) returns (result: Option<DiffFiles>)
    ensures result.Some? <==> ValidFiles(frozen) && |OutEntries(frozen.Keys)| <= MAX_ENTRIES && MetadataOk(summaryChars, exitCode)
    ensures result.Some? ==> result.value.Keys == NonCanonical(frozen)
  {
    var w := new Workspace();
    var ok := w.Materialize(frozen);
    if !ok { return None; }
    assert forall p | p in frozen :: LegalPath(p);
    TreeOfIsWellFormed(frozen);
    AcceptableIff(frozen);
    UntouchedKeys(frozen);
    result := Collect(w.tree, frozen, summaryChars, exitCode);
  }

  // ---- a valid map whose untouched tree is refused -----------------------------------------------

  const DEPTH := 250

  function Steps(k: nat): (p: Path)
    ensures |p| == k && forall i | 0 <= i < k :: p[i] == "a"
  {
    if k == 0 then [] else ["a"] + Steps(k - 1)
  }

  /** `out`, a letter of its own, and 250 directories and a file all called `a`. */
  function Deep(i: nat): Path
    requires i < 9
  {
    ["out", [(('b' as int) + i) as char]] + Steps(DEPTH)
  }

  const EMPTY_FILE := Descriptor(Encode([]), 0, Sha256([]), Plain)

  function Crowd(n: nat): FrozenFiles
    requires n <= 9
  {
    if n == 0 then map[] else Crowd(n - 1)[Deep(n - 1) := EMPTY_FILE]
  }

  lemma {:induction false} CrowdFiles(n: nat, p: Path)
    requires n <= 9
    ensures p in Crowd(n) <==> exists i | 0 <= i < n :: p == Deep(i)
    ensures p in Crowd(n) ==> Crowd(n)[p] == EMPTY_FILE
    ensures |Crowd(n)| <= n
  {
    if n > 0 { CrowdFiles(n - 1, p); }
  }

  lemma {:induction false} StepsLength(k: nat)
    requires k > 0
    ensures |Join(Steps(k))| == 2 * k - 1
  {
    if k > 1 {
      StepsLength(k - 1);
      assert Steps(k)[1..] == Steps(k - 1);
    }
  }

  lemma PlainNameIsLegal(part: string)
    requires part == "out" || (|part| == 1 && 'a' <= part[0] <= 'z')
    ensures LegalPart(part)
  {
    assert Fold(part) == FoldChar(part[0]) + Fold(part[1..]);
    assert Fold(part)[0] == part[0];
    assert !IsBlank(part[0]);
  }

  lemma DeepIsLegal(i: nat)
    requires i < 9
    ensures LegalPath(Deep(i))
  {
    var p := Deep(i);
    StepsLength(DEPTH);
    assert p[1..][1..] == Steps(DEPTH);
    assert Join(p) == p[0] + "/" + Join(p[1..]) && Join(p[1..]) == p[1] + "/" + Join(Steps(DEPTH));
    forall k | 0 <= k < |p| ensures LegalPart(p[k]) { PlainNameIsLegal(p[k]); }
  }

  lemma {:induction false} NothingToSum(files: DiffFiles, keys: set<Path>)
    requires keys <= files.Keys && forall p | p in keys :: Size(files[p]) == 0
    ensures Sum(files, keys) == 0
    decreases |keys|
  {
    if keys != {} {
      var p :| p in keys;
      SumAny(files, keys, p);
      NothingToSum(files, keys - {p});
    }
  }

  lemma CrowdIsValid()
    ensures ValidFiles(Crowd(9))
  {
    var files := Crowd(9);
    CrowdFiles(9, []);
    forall p | p in files ensures LegalPath(p) && |p| == DEPTH + 2 && FileBytes(files[p]).Some? && Size(Some(files[p])) == 0 {
      CrowdFiles(9, p);
      var i :| 0 <= i < 9 && p == Deep(i);
      DeepIsLegal(i);
    }
    forall p, n | p in files && 0 < n < |p| ensures p[..n] !in files { assert |p[..n]| == n; }
    NothingToSum(AsOptions(files), files.Keys);
  }

  /** The directories below `out` on the way to `p`, up to length `k`. */
  function Spine(p: Path, k: nat): set<Path>
    requires 1 <= k <= |p|
  {
    if k == 1 then {} else Spine(p, k - 1) + {p[..k]}
  }

  lemma {:induction false} SpineSize(p: Path, k: nat)
    requires 1 <= k <= |p|
    ensures |Spine(p, k)| == k - 1
    ensures forall q | q in Spine(p, k) :: 1 < |q| <= k && q == p[..|q|]
  {
    if k > 1 { SpineSize(p, k - 1); }
  }

  function Spines(n: nat): set<Path>
    requires n <= 9
  {
    if n == 0 then {} else Spines(n - 1) + Spine(Deep(n - 1), DEPTH + 2)
  }

  /** The letter of a node tells its spine. */
  predicate LetterBelow(q: Path, n: nat) {
    |q| > 1 && |q[1]| == 1 && (q[1][0] as int) < ('b' as int) + n
  }

  lemma SpineLetter(i: nat, q: Path)
    requires i < 9 && q in Spine(Deep(i), DEPTH + 2)
    ensures LetterBelow(q, i + 1) && !LetterBelow(q, i)
  {
    SpineSize(Deep(i), DEPTH + 2);
    assert q[1] == Deep(i)[..|q|][1] == Deep(i)[1];
  }

  lemma {:induction false} SpinesSize(n: nat)
    requires n <= 9
    ensures |Spines(n)| == n * (DEPTH + 1)
    ensures forall q | q in Spines(n) :: LetterBelow(q, n)
  {
    if n > 0 {
      SpinesSize(n - 1);
      var spine := Spine(Deep(n - 1), DEPTH + 2);
      SpineSize(Deep(n - 1), DEPTH + 2);
      forall q | q in spine ensures LetterBelow(q, n) && q !in Spines(n - 1) { SpineLetter(n - 1, q); }
      assert Spines(n - 1) !! spine;
    }
  }

  lemma SpineEntries(files: set<Path>, p: Path)
    requires p in files && |p| > 1 && p[0] == "out"
    ensures Spine(p, |p|) <= OutEntries(files)
  {
    SpineSize(p, |p|);
    forall q | q in Spine(p, |p|) ensures q in OutEntries(files) { assert q == p[..|q|]; }
  }

  lemma {:induction false} SpinesEntries(n: nat)
    requires n <= 9
    ensures Spines(n) <= OutEntries(Crowd(9).Keys)
  {
    if n > 0 {
      SpinesEntries(n - 1);
      CrowdFiles(9, Deep(n - 1));
      SpineEntries(Crowd(9).Keys, Deep(n - 1));
    }
  }

  /** Nine empty files with canonical base64 and legal names: valid, and yet `collect` refuses the tree
      that `materialize` made of them. */
  lemma AValidTreeCanBeRefused()
    ensures ValidFiles(Crowd(9)) && NonCanonical(Crowd(9)) == {} && !Acceptable(TreeOf(Crowd(9)), Crowd(9))
  {
    CrowdIsValid();
    forall p | p in Crowd(9) ensures Crowd(9)[p] == EMPTY_FILE { CrowdFiles(9, p); }
    SpinesSize(9);
    SpinesEntries(9);
    Cardinality(Spines(9), OutEntries(Crowd(9).Keys));
    AcceptableIff(Crowd(9));
  }
}
