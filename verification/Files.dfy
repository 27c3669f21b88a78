/** File descriptors as the worker protocol carries them, and sums of their sizes. */
module Files {
  import opened Paths
  import opened Records

  const MAX_FILES := 100
  const MAX_FILE_BYTES := 1048576
  const MAX_TOTAL_BYTES := 2097152
  const MAX_BASE64_CHARS := 1398104

  /** Base64 text (section 4 of RFC 4648). A decoder that accepts non-zero spare bits maps several
      texts to the same bytes; only the text with zero spare bits is canonical (section 3.5). */
  datatype Base64 = Encoded(data: Data, spare: nat) | Garbage(length: nat)

  function TextLength(n: nat): nat {
    4 * ((n + 2) / 3)
  }

  function Base64Length(t: Base64): nat {
    match t
    case Encoded(data, _) => TextLength(|data|)
    case Garbage(n) => n
  }

  function Encode(data: Data): Base64 {
    Encoded(data, 0)
  }

  /** A collision-free digest of bytes. */
  datatype Sha256 = Sha256(of: Data)

  datatype Mode = Plain | Executable | OtherMode(bits: nat)

  datatype Descriptor = Descriptor(base64: Base64, bytes: int, sha256: Sha256, mode: Mode)

  /** `file_bytes`: the bytes of an acceptable descriptor. */
  function FileBytes(f: Descriptor): Option<Data> {
    if Base64Length(f.base64) <= MAX_BASE64_CHARS && 0 <= f.bytes <= MAX_FILE_BYTES && !f.mode.OtherMode?
       && f.base64.Encoded? && |f.base64.data| == f.bytes && f.sha256 == Sha256(f.base64.data)
    then Some(f.base64.data) else None
  }

  /** What `_read_file` returns for a regular file. */
  function Describe(data: Data, executable: bool): Descriptor {
    Descriptor(Encode(data), |data|, Sha256(data), if executable then Executable else Plain)
  }

  /** Every file within the size bound has an acceptable description: the base64 bound never
      refuses a file that the byte bound admits, and it is the least such bound. */
  lemma DescriptionsAreAccepted(data: Data, executable: bool)
    ensures |data| <= MAX_FILE_BYTES <==> FileBytes(Describe(data, executable)) == Some(data)
    ensures TextLength(MAX_FILE_BYTES) == MAX_BASE64_CHARS
  {
    if |data| <= MAX_FILE_BYTES {
      assert (|data| + 2) / 3 <= (MAX_FILE_BYTES + 2) / 3;
    }
  }

  /** An acceptable descriptor is a description of its bytes, up to the spare bits of the text. */
  lemma AcceptedIsADescription(f: Descriptor, data: Data)
    ensures FileBytes(f) == Some(data) <==>
              && |data| <= 1048576
              && exists executable, spare :: f == Describe(data, executable).(base64 := Encoded(data, spare))
  {
    if FileBytes(f) == Some(data) {
      assert f == Describe(data, f.mode.Executable?).(base64 := Encoded(data, f.base64.spare));
    }
    if |data| <= 1048576 { assert (|data| + 2) / 3 <= (MAX_FILE_BYTES + 2) / 3; }
  }

  /** Two acceptable descriptors of one mode differ, if at all, in the spare bits of the text. */
  lemma SameBytes(f: Descriptor, g: Descriptor)
    requires FileBytes(f).Some? && FileBytes(g) == FileBytes(f) && f.mode == g.mode
    ensures f == g <==> f.base64.spare == g.base64.spare
  {
  }

  // ---- sums over file maps --------------------------------------------------------------------

  /** Bytes a deletion or a file adds to the total. */
  function Size(f: Option<Descriptor>): nat {
    if f.Some? && f.value.bytes >= 0 then f.value.bytes else 0
  }

  ghost function Sum(files: map<Path, Option<Descriptor>>, keys: set<Path>): nat
    requires keys <= files.Keys
  {
    if keys == {} then 0
    else
      var p :| p in keys;
      Size(files[p]) + Sum(files, keys - {p})
  }

  /** The order of summation does not matter. */
  lemma {:induction false} SumAny(files: map<Path, Option<Descriptor>>, keys: set<Path>, p: Path)
    requires keys <= files.Keys && p in keys
    ensures Sum(files, keys) == Size(files[p]) + Sum(files, keys - {p})
    decreases |keys|
  {
    var q :| q in keys && Sum(files, keys) == Size(files[q]) + Sum(files, keys - {q});
    if q != p {
      SumAny(files, keys - {q}, p);
      SumAny(files, keys - {p}, q);
      assert keys - {q} - {p} == keys - {p} - {q};
    }
  }

  lemma {:induction false} SumMonotone(files: map<Path, Option<Descriptor>>, small: set<Path>, large: set<Path>)
    requires small <= large <= files.Keys
    ensures Sum(files, small) <= Sum(files, large)
    decreases |large|
  {
    if small != large {
      var p :| p in large && p !in small;
      SumAny(files, large, p);
      SumMonotone(files, small, large - {p});
    }
  }

  lemma {:induction false} SumSame(files: map<Path, Option<Descriptor>>, others: map<Path, Option<Descriptor>>, keys: set<Path>)
    requires keys <= files.Keys && keys <= others.Keys
    requires forall p | p in keys :: files[p] == others[p]
    ensures Sum(files, keys) == Sum(others, keys)
    decreases |keys|
  {
    if keys != {} {
      var p :| p in keys;
      SumAny(files, keys, p);
      SumAny(others, keys, p);
      SumSame(files, others, keys - {p});
    }
  }

  // ---- the frozen input -----------------------------------------------------------------------

  type FrozenFiles = map<Path, Descriptor>

  function AsOptions(files: FrozenFiles): map<Path, Option<Descriptor>> {
    map p | p in files :: Some(files[p])
  }

  /** What `validate` demands of the frozen files. */
  ghost predicate ValidFiles(files: FrozenFiles) {
    && |files| <= MAX_FILES
    && (forall p | p in files :: LegalPath(p) && FileBytes(files[p]).Some?)
    && PrefixFree(files.Keys)
    && Sum(AsOptions(files), files.Keys) <= MAX_TOTAL_BYTES
  }

  predicate Collides(files: FrozenFiles, p: Path) {
    exists n | 0 < n < |p| :: p[..n] in files
  }

  predicate FileOk(files: FrozenFiles, p: Path)
    requires p in files
  {
    LegalPath(p) && !Collides(files, p) && FileBytes(files[p]).Some?
  }

  lemma ValidFilesPointwise(files: FrozenFiles)
    ensures ValidFiles(files) <==>
      |files| <= MAX_FILES && (forall p | p in files :: FileOk(files, p)) && Sum(AsOptions(files), files.Keys) <= MAX_TOTAL_BYTES
  {
    if forall p | p in files :: FileOk(files, p) {
      forall p, n | p in files && 0 < n < |p| ensures p[..n] !in files { assert FileOk(files, p); }
    }
    if ValidFiles(files) {
      forall p | p in files ensures FileOk(files, p) {}
    }
  }

  lemma SumAdd(files: map<Path, Option<Descriptor>>, done: set<Path>, p: Path)
    requires done <= files.Keys && p in files && p !in done
    ensures Sum(files, done + {p}) == Sum(files, done) + Size(files[p])
    ensures Sum(files, done + {p}) <= Sum(files, files.Keys)
  {
    SumAny(files, done + {p}, p);
    assert done + {p} - {p} == done;
    SumMonotone(files, done + {p}, files.Keys);
  }

  /** The files outside `rest` have been checked and add up to `total`. */
  ghost predicate Checked(files: FrozenFiles, rest: set<Path>, total: int) {
    && rest <= files.Keys
    && total == Sum(AsOptions(files), files.Keys - rest) <= MAX_TOTAL_BYTES
    && forall p | p in files && p !in rest :: FileOk(files, p)
  }

  lemma CheckOne(files: FrozenFiles, rest: set<Path>, total: int, p: Path)
    requires Checked(files, rest, total) && p in rest && FileOk(files, p)
    ensures var more := total + |FileBytes(files[p]).value|;
            && (more <= MAX_TOTAL_BYTES ==> Checked(files, rest - {p}, more))
            && (more > MAX_TOTAL_BYTES ==> !ValidFiles(files))
  {
    assert AsOptions(files).Keys == files.Keys;
    SumAdd(AsOptions(files), files.Keys - rest, p);
    assert files.Keys - (rest - {p}) == (files.Keys - rest) + {p};
  }

  /** `validate`: the loop over the files, in whatever order the mapping yields them. */
  method Validate(files: FrozenFiles) returns (ok: bool)
    ensures ok <==> ValidFiles(files)
  {
    ValidFilesPointwise(files);
    if |files| > MAX_FILES { return false; }
    var total: int := 0;
    var rest := files.Keys;
    assert files.Keys - rest == {};
    while rest != {}
      invariant Checked(files, rest, total)
      decreases |rest|
    {
      var p :| p in rest;
      if !FileOk(files, p) { return false; }
      CheckOne(files, rest, total, p);
      total := total + |FileBytes(files[p]).value|;
      if total > MAX_TOTAL_BYTES { return false; }
      rest := rest - {p};
    }
    assert files.Keys - rest == files.Keys;
    return true;
  }
}
