/** A directory on a disk that can crash: what processes see, what is durable, and the directory
    changes in between. A file that was not synced may come back torn; of the pending changes
    any subset survives. A failed fsync changes neither image. */
module CrashDisk {
  import opened Records
  import opened RunDirectory

  /** A published record, of the kind its name demands. */
  datatype Value =
    | TicketValue(ticket: Ticket)
    | LaunchValue(launch: Launch)
    | AdmittedValue(admitted: Admitted)
    | StoppedValue(stopped: Stopped)
    | AcknowledgedValue(acknowledged: Acknowledged)

  function NameOf(v: Value): Name {
    match v
    case TicketValue(_) => ClaimName
    case LaunchValue(_) => LaunchName
    case AdmittedValue(_) => AdmittedName
    case StoppedValue(_) => StoppedName
    case AcknowledgedValue(_) => AcknowledgedName
  }

  type Ino = nat

  /** A directory entry: a record name, or a private staged name. */
  datatype Entry = Record(name: Name) | Staged(id: nat)

  datatype Content = Torn | Whole(value: Value)

  datatype File = File(content: Content, synced: bool)

  datatype Change = Linked(entry: Entry, ino: Ino) | Unlinked(entry: Entry)

  datatype Disk = Disk(files: map<Ino, File>, visible: map<Entry, Ino>, durable: map<Entry, Ino>, pending: seq<Change>)

  const EMPTY_DISK := Disk(map[], map[], map[], [])

  function Apply(image: map<Entry, Ino>, c: Change): map<Entry, Ino> {
    match c
    case Linked(e, ino) => image[e := ino]
    case Unlinked(e) => image - {e}
  }

  /** The image after those pending changes whose position is in `kept`, in order. */
  function Replay(image: map<Entry, Ino>, pending: seq<Change>, kept: set<nat>): map<Entry, Ino> {
    if |pending| == 0 then image
    else
      var before := Replay(image, pending[..|pending| - 1], kept);
      if |pending| - 1 in kept then Apply(before, pending[|pending| - 1]) else before
  }

  function Below(n: nat): (s: set<nat>)
    ensures forall i: nat :: i in s <==> i < n
  {
    if n == 0 then {} else Below(n - 1) + {n - 1}
  }

  // ---- system calls -----------------------------------------------------------------------

  function Create(d: Disk, staged: nat, ino: Ino): Disk {
    d.(files := d.files[ino := File(Torn, false)],
       visible := d.visible[Staged(staged) := ino],
       pending := d.pending + [Linked(Staged(staged), ino)])
  }

  function Write(d: Disk, ino: Ino, v: Value): Disk {
    d.(files := d.files[ino := File(Whole(v), false)])
  }

  function SyncFile(d: Disk, ino: Ino): Disk
    requires ino in d.files
  {
    d.(files := d.files[ino := d.files[ino].(synced := true)])
  }

  /** link(2) never overwrites: it is used only where the name is free. */
  function LinkRecord(d: Disk, name: Name, ino: Ino): Disk {
    d.(visible := d.visible[Record(name) := ino], pending := d.pending + [Linked(Record(name), ino)])
  }

  function Unlink(d: Disk, staged: nat): Disk {
    d.(visible := d.visible - {Staged(staged)}, pending := d.pending + [Unlinked(Staged(staged))])
  }

  function SyncDirectory(d: Disk): Disk {
    d.(durable := d.visible, pending := [])
  }

  function Crash(d: Disk, kept: set<nat>): Disk {
    var image := Replay(d.durable, d.pending, kept);
    Disk(map i | i in d.files :: if d.files[i].synced then d.files[i] else File(Torn, true), image, image, [])
  }

  /** What a reader finds under a name. */
  function Find(d: Disk, name: Name): Option<Content> {
    if Record(name) in d.visible && d.visible[Record(name)] in d.files
    then Some(d.files[d.visible[Record(name)]].content) else None
  }

  // ---- the record names of a disk -----------------------------------------------------------

  /** Every reference to a record name, in either image or in between, is to one synced file
      holding a whole record of that name's kind. */
  ghost predicate NameOk(d: Disk, n: Name) {
    && (Record(n) in d.durable ==> Record(n) in d.visible && d.durable[Record(n)] == d.visible[Record(n)])
    && (forall i | 0 <= i < |d.pending| && d.pending[i].entry == Record(n) ::
          Record(n) in d.visible && d.pending[i] == Linked(Record(n), d.visible[Record(n)]))
    && (Record(n) in d.visible ==>
          && d.visible[Record(n)] in d.files && d.files[d.visible[Record(n)]].synced
          && d.files[d.visible[Record(n)]].content.Whole?
          && NameOf(d.files[d.visible[Record(n)]].content.value) == n)
  }

  ghost predicate NamesOk(d: Disk) {
    forall n :: NameOk(d, n)
  }

  /** The visible image is the durable one with every pending change applied. */
  ghost predicate Consistent(d: Disk) {
    d.visible == Replay(d.durable, d.pending, Below(|d.pending|))
  }

  function ValueAt(d: Disk, n: Name): Value
    requires NameOk(d, n) && Record(n) in d.visible
  {
    d.files[d.visible[Record(n)]].content.value
  }

  /** Which positions are kept matters only below the length. */
  lemma {:induction false} ReplayPrefix(image: map<Entry, Ino>, pending: seq<Change>, a: set<nat>, b: set<nat>)
    requires forall i | 0 <= i < |pending| :: i in a <==> i in b
    ensures Replay(image, pending, a) == Replay(image, pending, b)
  {
    if |pending| == 0 {
    } else {
      ReplayPrefix(image, pending[..|pending| - 1], a, b);
    }
  }

  lemma AppendConsistent(d: Disk, visible: map<Entry, Ino>, c: Change)
    requires Consistent(d) && visible == Apply(d.visible, c)
    ensures Consistent(d.(visible := visible, pending := d.pending + [c]))
  {
    var longer := d.pending + [c];
    assert longer[..|longer| - 1] == d.pending;
    ReplayPrefix(d.durable, d.pending, Below(|d.pending|), Below(|longer|));
  }

  /** Replaying any subset keeps a record name that was durable, and can only bind it to the file
      every reference names. */
  lemma {:induction false} ReplayKeepsName(image: map<Entry, Ino>, pending: seq<Change>, kept: set<nat>, e: Entry, ino: Ino)
    requires e in image ==> image[e] == ino
    requires forall i | 0 <= i < |pending| && pending[i].entry == e :: pending[i] == Linked(e, ino)
    ensures var r := Replay(image, pending, kept); (e in image ==> e in r) && (e in r ==> r[e] == ino)
  {
    if |pending| == 0 {
    } else {
      ReplayKeepsName(image, pending[..|pending| - 1], kept, e, ino);
    }
  }

  /** A name no pending change mentions is unchanged by any replay. */
  lemma {:induction false} ReplaySkipsName(image: map<Entry, Ino>, pending: seq<Change>, kept: set<nat>, e: Entry)
    requires forall i | 0 <= i < |pending| :: pending[i].entry != e
    ensures var r := Replay(image, pending, kept); (e in r <==> e in image) && (e in r ==> r[e] == image[e])
  {
    if |pending| == 0 {
    } else {
      ReplaySkipsName(image, pending[..|pending| - 1], kept, e);
    }
  }

  /** After a crash a record name is bound to the same whole record, or was never durable. */
  lemma CrashKeepsName(d: Disk, kept: set<nat>, n: Name)
    requires NameOk(d, n)
    ensures var e := Crash(d, kept);
            && NameOk(e, n)
            && (Record(n) in d.durable ==> Record(n) in e.durable)
            && (Record(n) in e.durable ==> Record(n) in d.visible && ValueAt(e, n) == ValueAt(d, n))
  {
    if Record(n) in d.visible {
      ReplayKeepsName(d.durable, d.pending, kept, Record(n), d.visible[Record(n)]);
    } else {
      ReplaySkipsName(d.durable, d.pending, kept, Record(n));
    }
  }

  // ---- the directory as cells ---------------------------------------------------------------

  function TicketCell(d: Disk): Cell<Ticket> requires NameOk(d, ClaimName) {
    if Record(ClaimName) !in d.visible then Absent
    else if Record(ClaimName) in d.durable then Durable(ValueAt(d, ClaimName).ticket) else Visible(ValueAt(d, ClaimName).ticket)
  }

  function LaunchCell(d: Disk): Cell<Launch> requires NameOk(d, LaunchName) {
    if Record(LaunchName) !in d.visible then Absent
    else if Record(LaunchName) in d.durable then Durable(ValueAt(d, LaunchName).launch) else Visible(ValueAt(d, LaunchName).launch)
  }

  function AdmittedCell(d: Disk): Cell<Admitted> requires NameOk(d, AdmittedName) {
    if Record(AdmittedName) !in d.visible then Absent
    else if Record(AdmittedName) in d.durable then Durable(ValueAt(d, AdmittedName).admitted) else Visible(ValueAt(d, AdmittedName).admitted)
  }

  function StoppedCell(d: Disk): Cell<Stopped> requires NameOk(d, StoppedName) {
    if Record(StoppedName) !in d.visible then Absent
    else if Record(StoppedName) in d.durable then Durable(ValueAt(d, StoppedName).stopped) else Visible(ValueAt(d, StoppedName).stopped)
  }

  function AcknowledgedCell(d: Disk): Cell<Acknowledged> requires NameOk(d, AcknowledgedName) {
    if Record(AcknowledgedName) !in d.visible then Absent
    else if Record(AcknowledgedName) in d.durable then Durable(ValueAt(d, AcknowledgedName).acknowledged)
    else Visible(ValueAt(d, AcknowledgedName).acknowledged)
  }

  /** The abstraction: inodes, staged names and pending changes are forgotten. */
  ghost function View(d: Disk): RunDir
    requires NamesOk(d)
  {
    RunDir(true, TicketCell(d), LaunchCell(d), AdmittedCell(d), StoppedCell(d), AcknowledgedCell(d))
  }

  lemma SyncRefines(d: Disk)
    requires NamesOk(d)
    ensures NamesOk(SyncDirectory(d)) && View(SyncDirectory(d)) == SyncDir(View(d))
  {
    forall n ensures NameOk(SyncDirectory(d), n) { assert NameOk(d, n); }
    assert NameOk(d, ClaimName) && NameOk(d, LaunchName) && NameOk(d, AdmittedName)
        && NameOk(d, StoppedName) && NameOk(d, AcknowledgedName);
  }

  /** Which record names made it through a crash. */
  function Survivors(d: Disk): set<Name> {
    set n | n in {ClaimName, LaunchName, AdmittedName, StoppedName, AcknowledgedName} && Record(n) in d.durable
  }

  /** A crash of the disk is exactly a crash of the cells. */
  lemma CrashRefines(d: Disk, kept: set<nat>)
    requires NamesOk(d)
    ensures NamesOk(Crash(d, kept)) && View(Crash(d, kept)) == CrashDir(View(d), Survivors(Crash(d, kept)))
  {
    forall n ensures NameOk(Crash(d, kept), n) { CrashKeepsName(d, kept, n); }
    CrashKeepsName(d, kept, ClaimName);
    CrashKeepsName(d, kept, LaunchName);
    CrashKeepsName(d, kept, AdmittedName);
    CrashKeepsName(d, kept, StoppedName);
    CrashKeepsName(d, kept, AcknowledgedName);
  }

  /** Binding a free name to a synced file is the cell going from absent to visible. */
  function LinkCells(d: RunDir, v: Value): RunDir {
    match v
    case TicketValue(t) => d.(claim := Visible(t))
    case LaunchValue(l) => d.(launch := Visible(l))
    case AdmittedValue(a) => d.(admitted := Visible(a))
    case StoppedValue(s) => d.(stopped := Visible(s))
    case AcknowledgedValue(a) => d.(acknowledged := Visible(a))
  }

  lemma LinkRefines(d: Disk, v: Value, ino: Ino)
    requires NamesOk(d) && ino in d.files && d.files[ino] == File(Whole(v), true) && Record(NameOf(v)) !in d.visible
    ensures NamesOk(LinkRecord(d, NameOf(v), ino))
    ensures View(LinkRecord(d, NameOf(v), ino)) == LinkCells(View(d), v)
  {
    var e := LinkRecord(d, NameOf(v), ino);
    forall n ensures NameOk(e, n) { assert NameOk(d, n); }
    assert NameOk(d, ClaimName) && NameOk(d, LaunchName) && NameOk(d, AdmittedName)
        && NameOk(d, StoppedName) && NameOk(d, AcknowledgedName);
    assert NameOk(e, ClaimName) && NameOk(e, LaunchName) && NameOk(e, AdmittedName)
        && NameOk(e, StoppedName) && NameOk(e, AcknowledgedName);
  }

  /** Work on staged names and on files no record name refers to is invisible. */
  lemma StagedWorkRefines(d: Disk, e: Disk)
    requires NamesOk(d)
    requires forall n :: (Record(n) in e.visible <==> Record(n) in d.visible) && (Record(n) in e.durable <==> Record(n) in d.durable)
    requires forall n | Record(n) in d.visible :: NameOk(d, n)
               && e.visible[Record(n)] == d.visible[Record(n)] && e.visible[Record(n)] in e.files
               && e.files[e.visible[Record(n)]] == d.files[d.visible[Record(n)]]
    requires forall n | Record(n) in d.durable :: Record(n) in e.durable && e.durable[Record(n)] == d.durable[Record(n)]
    requires forall i | 0 <= i < |e.pending| && e.pending[i].entry.Record? :: e.pending[i] in d.pending
    ensures NamesOk(e) && View(e) == View(d)
  {
    forall n ensures NameOk(e, n) {
      assert NameOk(d, n);
      forall i | 0 <= i < |e.pending| && e.pending[i].entry == Record(n)
        ensures Record(n) in e.visible && e.pending[i] == Linked(Record(n), e.visible[Record(n)])
      {
        var j :| 0 <= j < |d.pending| && d.pending[j] == e.pending[i];
      }
    }
    assert NameOk(d, ClaimName) && NameOk(d, LaunchName) && NameOk(d, AdmittedName)
        && NameOk(d, StoppedName) && NameOk(d, AcknowledgedName);
    assert NameOk(e, ClaimName) && NameOk(e, LaunchName) && NameOk(e, AdmittedName)
        && NameOk(e, StoppedName) && NameOk(e, AcknowledgedName);
  }
}
