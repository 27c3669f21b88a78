/** Worker file names: the text form used as a key, and its list of components.

    The rest of the project names a file by its components. The lemmas here show that nothing is
    lost: on component lists without a slash, joining and splitting are inverse, and the two
    textual tests of the code (`"/".join(parts[:n]) in files`, `startswith("out/")`) are tests on
    components. */
module Paths {
  type Path = seq<string>

  const MAX_PATH_CHARS := 512

  predicate SlashFree(part: string) {
    forall i | 0 <= i < |part| :: part[i] != '/'
  }

  predicate SlashFreePath(p: Path) {
    |p| > 0 && forall i | 0 <= i < |p| :: SlashFree(p[i])
  }

  /** `"/".join(p)` */
  function Join(p: Path): string
    requires |p| > 0
  {
    if |p| == 1 then p[0] else p[0] + "/" + Join(p[1..])
  }

  /** `text.split("/")`, one character at a time. */
  function Split(text: string): (p: Path)
    ensures |p| > 0
  {
    if text == "" then [""]
    else
      var rest := Split(text[1..]);
      if text[0] == '/' then [""] + rest else [[text[0]] + rest[0]] + rest[1..]
  }

  lemma {:induction false} SplitParts(text: string)
    ensures SlashFreePath(Split(text))
  {
    if text != "" {
      SplitParts(text[1..]);
      var rest := Split(text[1..]);
      assert SlashFree(rest[0]);
    }
  }

  lemma {:induction false} SplitPlain(part: string)
    requires SlashFree(part)
    ensures Split(part) == [part]
  {
    if part != "" {
      assert SlashFree(part[1..]);
      SplitPlain(part[1..]);
      assert [part[0]] + part[1..] == part;
    }
  }

  lemma {:induction false} SplitAtSlash(part: string, text: string)
    requires SlashFree(part)
    ensures Split(part + "/" + text) == [part] + Split(text)
  {
    var whole := part + "/" + text;
    if part == "" {
      assert whole[0] == '/' && whole[1..] == text;
    } else {
      assert SlashFree(part[1..]);
      SplitAtSlash(part[1..], text);
      assert whole[1..] == part[1..] + "/" + text;
      assert [part[0]] + part[1..] == part;
      var rest := [part[1..]] + Split(text);
      assert rest[1..] == Split(text);
    }
  }

  /** Splitting a joined path gives the path back. */
  lemma {:induction false} SplitJoin(p: Path)
    requires SlashFreePath(p)
    ensures Split(Join(p)) == p
  {
    assert SlashFree(p[0]);
    if |p| == 1 {
      SplitPlain(p[0]);
    } else {
      assert SlashFreePath(p[1..]) by {
        forall i | 0 <= i < |p[1..]| ensures SlashFree(p[1..][i]) { assert p[1..][i] == p[i + 1]; }
      }
      SplitJoin(p[1..]);
      SplitAtSlash(p[0], Join(p[1..]));
    }
  }

  /** Joining a split text gives the text back. */
  lemma {:induction false} JoinSplit(text: string)
    ensures Join(Split(text)) == text
  {
    if text != "" {
      JoinSplit(text[1..]);
      var rest := Split(text[1..]);
      if text[0] == '/' {
        assert ([""] + rest)[1..] == rest;
        assert text == "/" + text[1..];
      } else if |rest| == 1 {
        assert text == [text[0]] + text[1..];
      } else {
        var p := Split(text);
        assert p[1..] == rest[1..];
        assert text == [text[0]] + text[1..];
        assert Join(p) == ([text[0]] + rest[0]) + "/" + Join(rest[1..]);
        assert Join(p) == [text[0]] + (rest[0] + "/" + Join(rest[1..]));
      }
    }
  }

  /** Two files have the same key exactly when they have the same components. */
  lemma JoinInjective(p: Path, q: Path)
    requires SlashFreePath(p) && SlashFreePath(q)
    ensures Join(p) == Join(q) <==> p == q
  {
    SplitJoin(p);
    SplitJoin(q);
  }

  lemma OutIsAPrefix(p: Path)
    requires |p| >= 2 && p[0] == "out"
    ensures "out/" <= Join(p)
  {
    var rest := Join(p[1..]);
    assert Join(p) == "out" + "/" + rest;
    assert "out" + "/" == "out/";
    assert "out" + "/" + rest == "out/" + rest;
  }

  lemma PrefixSplitsAtOut(text: string)
    requires "out/" <= text
    ensures Split(text) == ["out"] + Split(text[4..])
  {
    SplitAtSlash("out", text[4..]);
    assert text == "out/" + text[4..] == "out" + "/" + text[4..];
  }

  /** The textual test for a deliverable is the test for a file below `out`. */
  lemma StartsWithOut(p: Path)
    requires SlashFreePath(p)
    ensures "out/" <= Join(p) <==> |p| >= 2 && p[0] == "out"
  {
    SplitJoin(p);
    if "out/" <= Join(p) { PrefixSplitsAtOut(Join(p)); }
    if |p| >= 2 && p[0] == "out" { OutIsAPrefix(p); }
  }

  // ---- what `path_parts` accepts ------------------------------------------------------------

  /** Unicode category Cc. */
  predicate IsControl(c: char) {
    c < ' ' || '\U{7f}' <= c <= '\U{9f}'
  }

  /** The characters `str.strip` removes that are not control characters. */
  predicate IsBlank(c: char) {
    || IsControl(c) || c == ' ' || c == '\U{a0}' || c == '\U{1680}' || '\U{2000}' <= c <= '\U{200a}'
    || c == '\U{2028}' || c == '\U{2029}' || c == '\U{202f}' || c == '\U{205f}' || c == '\U{3000}'
  }

  /** `casefold` on the characters that fold into ASCII letters; others stay apart from them. */
  function FoldChar(c: char): string {
    if 'A' <= c <= 'Z' then [((c as int) - ('A' as int) + ('a' as int)) as char]
    else if c == '\U{df}' || c == '\U{1e9e}' then "ss"
    else if c == '\U{17f}' then "s"
    else if c == '\U{212a}' then "k"
    else if c == '\U{fb00}' then "ff"
    else if c == '\U{fb01}' then "fi"
    else if c == '\U{fb02}' then "fl"
    else if c == '\U{fb03}' then "ffi"
    else if c == '\U{fb04}' then "ffl"
    else if c == '\U{fb05}' || c == '\U{fb06}' then "st"
    else [c]
  }

  function Fold(s: string): string {
    if s == "" then "" else FoldChar(s[0]) + Fold(s[1..])
  }

  const CONTROL_PATHS := {".git", ".codex", ".claude", ".agents", ".aws", ".ssh", ".mcp.json", ".claude.json"}

  predicate LegalPart(part: string) {
    && SlashFree(part)
    && (forall i | 0 <= i < |part| :: part[i] != '\\' && !IsControl(part[i]))
    && (exists i | 0 <= i < |part| :: !IsBlank(part[i]))
    && part != "." && part != ".."
    && Fold(part) !in CONTROL_PATHS
  }

  predicate LegalPath(p: Path) {
    && |p| > 0
    && |Join(p)| <= MAX_PATH_CHARS
    && forall i {:trigger LegalPart(p[i])} | 0 <= i < |p| :: LegalPart(p[i])
  }

  /** A legal path is one that its key determines. */
  lemma LegalIsSlashFree(p: Path)
    requires LegalPath(p)
    ensures SlashFreePath(p) && Split(Join(p)) == p
  {
    forall i | 0 <= i < |p| ensures SlashFree(p[i]) { assert LegalPart(p[i]); }
    SplitJoin(p);
  }

  // ---- what a legal path can reach ------------------------------------------------------------

  /** Where a path leads below a root, as the kernel walks it: `.` and empty components stay, `..` goes
      up, and leads nowhere else at the root. */
  function Walk(p: Path): Path {
    if |p| == 0 then []
    else
      var at, name := Walk(p[..|p| - 1]), p[|p| - 1];
      if name == "" || name == "." then at
      else if name == ".." then (if |at| == 0 then [] else at[..|at| - 1])
      else at + [name]
  }

  /** A legal path leads to itself: no component is skipped or taken back on the way. */
  lemma {:induction false} WalkStays(p: Path, n: nat)
    requires LegalPath(p) && n <= |p|
    ensures Walk(p[..n]) == p[..n]
  {
    if n > 0 {
      WalkStays(p, n - 1);
      assert LegalPart(p[n - 1]);
      assert p[..n][..n - 1] == p[..n - 1];
      assert p[..n] == p[..n - 1] + [p[n - 1]];
    }
  }

  function Lower(c: char): char {
    if 'A' <= c <= 'Z' then ((c as int) + 32) as char else c
  }

  /** Equal but for the case of ASCII letters. */
  predicate SameName(a: string, b: string) {
    |a| == |b| && forall i | 0 <= i < |a| :: Lower(a[i]) == Lower(b[i])
  }

  lemma {:induction false} FoldsTogether(a: string, b: string)
    requires SameName(a, b) && forall i | 0 <= i < |b| :: b[i] < '\U{80}'
    ensures Fold(a) == Fold(b)
  {
    if a != "" {
      assert Lower(a[0]) == Lower(b[0]);
      assert SameName(a[1..], b[1..]) by {
        forall i | 0 <= i < |a| - 1 ensures Lower(a[1..][i]) == Lower(b[1..][i]) { assert a[1..][i] == a[i + 1] && b[1..][i] == b[i + 1]; }
      }
      FoldsTogether(a[1..], b[1..]);
    }
  }

  lemma {:induction false} LowerFoldsToItself(s: string)
    requires forall i | 0 <= i < |s| :: s[i] < '\U{80}' && !('A' <= s[i] <= 'Z')
    ensures Fold(s) == s
  {
    if s != "" { LowerFoldsToItself(s[1..]); }
  }

  /** No component of a legal path is a control name in any mix of upper and lower case. */
  lemma NoControlName(p: Path, i: nat, name: string)
    requires LegalPath(p) && i < |p|
    requires name in {".git", ".codex", ".claude", ".agents", ".aws", ".ssh", ".mcp.json", ".claude.json"}
    ensures !SameName(p[i], name)
  {
    assert LegalPart(p[i]);
    assert forall k | 0 <= k < |name| :: name[k] < '\U{80}' && !('A' <= name[k] <= 'Z');
    LowerFoldsToItself(name);
    if SameName(p[i], name) { FoldsTogether(p[i], name); }
  }

  /** Nor is one empty or blank, and none holds a slash, a backslash or a control character. */
  lemma PartsAreOrdinary(p: Path, i: nat)
    requires LegalPath(p) && i < |p|
    ensures p[i] != "" && p[i] != "." && p[i] != ".." && |Join(p)| <= 512
    ensures exists k | 0 <= k < |p[i]| :: p[i][k] != ' '
    ensures forall k | 0 <= k < |p[i]| :: p[i][k] != '/' && p[i][k] != '\\' && p[i][k] >= ' ' && p[i][k] != '\U{7f}'
  {
    assert LegalPart(p[i]);
    var k :| 0 <= k < |p[i]| && !IsBlank(p[i][k]);
    assert p[i][k] != ' ';
  }

  // ---- prefixes -------------------------------------------------------------------------------

  /** No file is also a directory on the way to another. */
  predicate PrefixFree(files: set<Path>) {
    forall p, n | p in files && 0 < n < |p| :: p[..n] !in files
  }

  predicate UnderOut(p: Path) {
    |p| >= 2 && p[0] == "out"
  }
}
