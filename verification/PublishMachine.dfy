/** Any number of processes publishing records in one directory, with crashes, kills and failing
    system calls between any two steps: `_publish` under `_advance` or `prepare`, and
    `claim.prepare`. */
module PublishMachine {
  import opened Records
  import opened RunDirectory
  import opened CrashDisk

  /** `Exact` refuses a record that differs from its own; `Adopt` returns the one that is there. */
  datatype Kind = Exact | Adopt

  datatype Pc =
    | ReadPhase(next: nat)        // `_chain`: read and fsync one phase file after the other
    | SyncChain                   // `_chain`: validate, then fsync the directory
    | Choose                      // build the record
    | FirstRead | CreateStaged | WriteStaged | SyncStaged | LinkName | SecondRead
    | UnlinkStaged | SyncResult
    | Cleanup                     // the `finally` after an exception
    | Returned | Failed

  datatype Proc = Proc(
    pc: Pc, kind: Kind, name: Name,
    seen: RunDir,                 // what the chain read returned
    want: Option<Value>,          // the record this call stands for
    own: Option<Value>,           // what it staged itself
    staged: nat, ino: Ino)

  datatype World = World(
    disk: Disk,
    procs: map<Pid, Proc>,
    returned: set<(Name, Value)>) // every value any call ever returned

  const EMPTY_WORLD := World(EMPTY_DISK, map[], {})

  const NOTHING_SEEN := RunDir(true, Absent, Absent, Absent, Absent, Absent)

  /** May `v` follow what the chain read showed? */
  predicate Continues(seen: RunDir, v: Value) {
    match v
    case TicketValue(_) => true
    case LaunchValue(l) => seen.launch.Present() ==> l.unit == seen.launch.record.unit
    case AdmittedValue(a) => seen.launch.Present() && ValidAdmitted(a, seen.launch.record)
    case StoppedValue(s) => seen.admitted.Present() && ValidStopped(s, seen.admitted.record)
    case AcknowledgedValue(a) =>
      seen.stopped.Present() && seen.launch.Present() && ValidAcknowledged(a, seen.launch.record, seen.stopped.record)
  }

  function PhaseName(k: nat): Name
    requires k < 4
  {
    if k == 0 then LaunchName else if k == 1 then AdmittedName else if k == 2 then StoppedName else AcknowledgedName
  }

  datatype Choice =
    | Ok
    | Raise                        // the system call failed, or a check refused
    | Chosen(value: Value)
    | FreshFile(staged: nat, ino: Ino)

  datatype Label =
    | Call(pid: Pid, kind: Kind, name: Name)
    | Move(pid: Pid, choice: Choice)
    | Kill(pid: Pid)
    | MachineCrash(kept: set<nat>)

  function NewProc(kind: Kind, name: Name): Proc {
    Proc(if kind.Adopt? then FirstRead else ReadPhase(0), kind, name, NOTHING_SEEN, None, None, 0, 0)
  }

  function Raised(p: Proc): Proc {
    if p.pc.WriteStaged? || p.pc.SyncStaged? || p.pc.LinkName? || p.pc.SecondRead? || p.pc.UnlinkStaged?
    then p.(pc := Cleanup) else p.(pc := Failed)
  }

  predicate Allows(d: Disk, p: Proc, ch: Choice) {
    if p.pc.Cleanup? then ch.Ok?
    else if p.pc.Choose? then ch.Raise? || (ch.Chosen? && NameOf(ch.value) == p.name && Continues(p.seen, ch.value))
    else if p.pc.FirstRead? then
      ch.Raise? || ch.Ok? || (ch.Chosen? && p.kind.Adopt? && NameOf(ch.value) == p.name)
    else if p.pc.CreateStaged? then
      ch.Raise? || (ch.FreshFile? && Staged(ch.staged) !in d.visible && ch.ino !in d.files)
    else ch.Raise? || ch.Ok?
  }

  /** Adopt a record that exists, if it is of the right kind, or insist on an equal one. */
  function Accept(p: Proc, found: Content, next: Pc): Proc {
    if found.Torn? then Raised(p)
    else if p.kind.Adopt? && NameOf(found.value) == p.name then p.(want := Some(found.value), pc := next)
    else if p.want == Some(found.value) then p.(pc := next)
    else Raised(p)
  }

  function Seen(p: Proc, k: nat, found: Option<Content>): Proc
    requires k < 4
  {
    var next := p.(pc := if k == 3 then SyncChain else ReadPhase(k + 1));
    match found
    case None => next
    case Some(Torn) => Raised(p)
    case Some(Whole(v)) =>
      if NameOf(v) == PhaseName(k) then next.(seen := LinkCells(p.seen, v)) else Raised(p)
  }

  function Act(d: Disk, p: Proc, ch: Choice): (Disk, Proc)
    requires !p.pc.Returned? && !p.pc.Failed? && Allows(d, p, ch)
  {
    if ch.Raise? then (d, Raised(p))
    else match p.pc
      case ReadPhase(k) => if k < 4 then (d, Seen(p, k, Find(d, PhaseName(k)))) else (d, Raised(p))
      case SyncChain => if ChainAccepts(p.seen) then (SyncDirectory(d), p.(pc := Choose)) else (d, Raised(p))
      case Choose => (d, p.(want := Some(ch.value), pc := FirstRead))
      case FirstRead =>
        (match Find(d, p.name)
         case Some(found) => (d, Accept(p, found, SyncResult))
         case None =>
           if p.kind.Adopt?
           then if ch.Chosen? then (d, p.(want := Some(ch.value), pc := CreateStaged)) else (d, Raised(p))
           else (d, p.(pc := CreateStaged)))
      case CreateStaged =>
        (Create(d, ch.staged, ch.ino), p.(staged := ch.staged, ino := ch.ino, own := p.want, pc := WriteStaged))
      case WriteStaged =>
        if p.want.Some? && p.ino in d.files then (Write(d, p.ino, p.want.value), p.(pc := SyncStaged)) else (d, Raised(p))
      case SyncStaged =>
        if p.ino in d.files then (SyncFile(d, p.ino), p.(pc := LinkName)) else (d, Raised(p))
      case LinkName =>
        if Record(p.name) in d.visible then (d, p.(pc := SecondRead))
        else (LinkRecord(d, p.name, p.ino), p.(pc := UnlinkStaged))
      case SecondRead =>
        (match Find(d, p.name)
         case Some(found) => (d, Accept(p, found, UnlinkStaged))
         case None => (d, Raised(p)))
      case UnlinkStaged => (Unlink(d, p.staged), p.(pc := SyncResult))
      case SyncResult => (SyncDirectory(d), p.(pc := Returned))
      case Cleanup => (Unlink(d, p.staged), p.(pc := Failed))
  }

  predicate Enabled(w: World, l: Label) {
    match l
    case Call(pid, kind, name) => pid !in w.procs && (kind.Adopt? <==> name == ClaimName)
    case Move(pid, ch) =>
      pid in w.procs && !w.procs[pid].pc.Returned? && !w.procs[pid].pc.Failed? && Allows(w.disk, w.procs[pid], ch)
    case Kill(pid) => pid in w.procs
    case MachineCrash(_) => true
  }

  function Next(w: World, l: Label): World
    requires Enabled(w, l)
  {
    match l
    case Call(pid, kind, name) => w.(procs := w.procs[pid := NewProc(kind, name)])
    case Move(pid, ch) =>
      var (d, p) := Act(w.disk, w.procs[pid], ch);
      World(d, w.procs[pid := p],
            if p.pc.Returned? && p.want.Some? then w.returned + {(p.name, p.want.value)} else w.returned)
    case Kill(pid) => w.(procs := w.procs - {pid})
    case MachineCrash(kept) => w.(disk := Crash(w.disk, kept), procs := map[])
  }

  ghost predicate Behaviour(t: seq<World>, labels: seq<Label>) {
    && |t| == |labels| + 1
    && t[0] == EMPTY_WORLD
    && forall i | 0 <= i < |labels| :: Enabled(t[i], labels[i]) && t[i + 1] == Next(t[i], labels[i])
  }

  // ---- the invariant ------------------------------------------------------------------------

  /** Each present phase rests on a durable predecessor that it links to. */
  predicate RestsOnDurable(d: RunDir) {
    && (d.admitted.Present() ==> d.launch.Durable? && ValidAdmitted(d.admitted.record, d.launch.record))
    && (d.stopped.Present() ==> d.admitted.Durable? && ValidStopped(d.stopped.record, d.admitted.record))
    && (d.acknowledged.Present() ==>
          && d.stopped.Durable? && d.launch.Durable?
          && ValidAcknowledged(d.acknowledged.record, d.launch.record, d.stopped.record))
  }

  /** Everything that was read is still what the disk shows. */
  predicate StillThere(seen: RunDir, d: RunDir) {
    && (seen.launch.Present() ==> d.launch.Present() && d.launch.record == seen.launch.record)
    && (seen.admitted.Present() ==> d.admitted.Present() && d.admitted.record == seen.admitted.record)
    && (seen.stopped.Present() ==> d.stopped.Present() && d.stopped.record == seen.stopped.record)
    && (seen.acknowledged.Present() ==> d.acknowledged.Present() && d.acknowledged.record == seen.acknowledged.record)
  }

  /** Everything that was read is durable. */
  predicate NowDurable(seen: RunDir, d: RunDir) {
    && (seen.launch.Present() ==> d.launch == Durable(seen.launch.record))
    && (seen.admitted.Present() ==> d.admitted == Durable(seen.admitted.record))
    && (seen.stopped.Present() ==> d.stopped == Durable(seen.stopped.record))
    && (seen.acknowledged.Present() ==> d.acknowledged == Durable(seen.acknowledged.record))
  }

  /** A staged file no record name refers to yet, holding what its process put there. */
  ghost predicate PrivateFile(d: Disk, p: Proc, content: Content, synced: bool) {
    && p.ino in d.files && d.files[p.ino] == File(content, synced)
    && forall n | Record(n) in d.visible :: d.visible[Record(n)] != p.ino
  }

  predicate OwnsFile(pc: Pc) {
    pc.WriteStaged? || pc.SyncStaged? || pc.LinkName?
  }

  predicate Decided(pc: Pc) {
    pc.CreateStaged? || pc.WriteStaged? || pc.SyncStaged? || pc.LinkName? || pc.SecondRead? || pc.UnlinkStaged?
    || pc.SyncResult? || pc.Returned?
  }

  ghost predicate ProcOk(d: Disk, p: Proc)
    requires NamesOk(d)
  {
    && (p.kind.Adopt? <==> p.name == ClaimName)
    && (p.pc.ReadPhase? || p.pc.SyncChain? ==> p.kind.Exact? && StillThere(p.seen, View(d)))
    && (p.pc.Choose? ==> p.kind.Exact? && NowDurable(p.seen, View(d)))
    && (p.pc.FirstRead? && p.kind.Exact? ==> Planned(d, p))
    && (Decided(p.pc) ==> Planned(d, p))
    && (p.pc.WriteStaged? ==> PrivateFile(d, p, Torn, false))
    && (p.pc.SyncStaged? ==> PrivateFile(d, p, Whole(p.want.value), false))
    && (p.pc.LinkName? ==> PrivateFile(d, p, Whole(p.want.value), true))
    && (p.pc.UnlinkStaged? || p.pc.SyncResult? || p.pc.Returned? ==> Bound(d, p))
    && (p.pc.Returned? ==> Record(p.name) in d.durable)
  }

  /** The record a call stands for has its name's kind and continues a durable chain. */
  ghost predicate Planned(d: Disk, p: Proc)
    requires NamesOk(d)
  {
    && p.want.Some? && NameOf(p.want.value) == p.name
    && (p.kind.Exact? ==> NowDurable(p.seen, View(d)) && Continues(p.seen, p.want.value))
  }

  /** The name is bound to that very record. */
  ghost predicate Bound(d: Disk, p: Proc)
    requires NamesOk(d)
  {
    p.want.Some? && Record(p.name) in d.visible && ValueAt(d, p.name) == p.want.value
  }

  ghost predicate Inv(w: World) {
    && NamesOk(w.disk) && Consistent(w.disk)
    && RestsOnDurable(View(w.disk))
    && (forall pid | pid in w.procs :: ProcOk(w.disk, w.procs[pid]))
    && (forall a, b | a in w.procs && b in w.procs && a != b && OwnsFile(w.procs[a].pc) && OwnsFile(w.procs[b].pc) ::
          w.procs[a].ino != w.procs[b].ino)
    && (forall r | r in w.returned :: Record(r.0) in w.disk.durable && ValueAt(w.disk, r.0) == r.1)
  }
}
