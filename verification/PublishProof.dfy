/** Every step of the publishers keeps the invariant, and refines the cells. */
module PublishProof {
  import opened Records
  import opened RunDirectory
  import opened CrashDisk
  import opened PublishMachine

  /** Record names only gain: bound names keep their record, durable names stay durable. */
  ghost predicate NamesGrow(d: Disk, e: Disk)
    requires NamesOk(d) && NamesOk(e)
  {
    forall n {:trigger NameOk(d, n)} {:trigger NameOk(e, n)} :: NameOk(d, n) && NameOk(e, n)
      && (Record(n) in d.visible ==> Record(n) in e.visible && ValueAt(e, n) == ValueAt(d, n))
      && (Record(n) in d.durable ==> Record(n) in e.durable)
  }

  lemma GrowthImproves(d: Disk, e: Disk)
    requires NamesOk(d) && NamesOk(e) && NamesGrow(d, e)
    ensures Improves(View(d), View(e))
  {
    assert NameOk(d, ClaimName) && NameOk(d, LaunchName) && NameOk(d, AdmittedName)
        && NameOk(d, StoppedName) && NameOk(d, AcknowledgedName);
  }

  /** A process that did not move, when record names only gained and its own file is untouched. */
  lemma BystanderKeeps(d: Disk, e: Disk, q: Proc)
    requires NamesOk(d) && NamesOk(e) && NamesGrow(d, e) && ProcOk(d, q)
    requires OwnsFile(q.pc) ==>
               && q.ino in e.files && (q.ino in d.files ==> e.files[q.ino] == d.files[q.ino])
               && forall n | Record(n) in e.visible :: e.visible[Record(n)] != q.ino
    ensures ProcOk(e, q)
  {
    GrowthImproves(d, e);
    assert NameOk(d, q.name) && NameOk(e, q.name);
  }

  ghost predicate Unreferenced(d: Disk, ino: Ino) {
    forall n | Record(n) in d.visible :: d.visible[Record(n)] != ino
  }

  /** `e` is a healthy disk that shows the same records as `d`. */
  ghost predicate SameRecords(d: Disk, e: Disk)
    requires NamesOk(d)
  {
    NamesOk(e) && Consistent(e) && NamesGrow(d, e) && View(e) == View(d)
  }

  lemma CreateKeeps(d: Disk, staged: nat, ino: Ino)
    requires NamesOk(d) && Consistent(d) && ino !in d.files
    ensures SameRecords(d, Create(d, staged, ino)) && Unreferenced(Create(d, staged, ino), ino)
  {
    var e := Create(d, staged, ino);
    forall n | Record(n) in d.visible ensures NameOk(d, n) && d.visible[Record(n)] != ino { assert NameOk(d, n); }
    StagedWorkRefines(d, e);
    AppendConsistent(d, e.visible, Linked(Staged(staged), ino));
    forall n ensures NameOk(d, n) && NameOk(e, n) { assert NameOk(d, n) && NameOk(e, n); }
  }

  lemma FileKeeps(d: Disk, ino: Ino, f: File)
    requires NamesOk(d) && Consistent(d) && Unreferenced(d, ino)
    ensures SameRecords(d, d.(files := d.files[ino := f]))
  {
    var e := d.(files := d.files[ino := f]);
    forall n | Record(n) in d.visible ensures NameOk(d, n) { assert NameOk(d, n); }
    StagedWorkRefines(d, e);
    forall n ensures NameOk(d, n) && NameOk(e, n) { assert NameOk(d, n) && NameOk(e, n); }
  }

  lemma UnlinkKeeps(d: Disk, staged: nat)
    requires NamesOk(d) && Consistent(d)
    ensures SameRecords(d, Unlink(d, staged))
  {
    var e := Unlink(d, staged);
    forall n | Record(n) in d.visible ensures NameOk(d, n) { assert NameOk(d, n); }
    StagedWorkRefines(d, e);
    AppendConsistent(d, e.visible, Unlinked(Staged(staged)));
    forall n ensures NameOk(d, n) && NameOk(e, n) { assert NameOk(d, n) && NameOk(e, n); }
  }

  lemma SyncDirectoryKeeps(d: Disk)
    requires NamesOk(d) && Consistent(d)
    ensures NamesOk(SyncDirectory(d)) && Consistent(SyncDirectory(d)) && NamesGrow(d, SyncDirectory(d))
    ensures View(SyncDirectory(d)) == SyncDir(View(d))
  {
    SyncRefines(d);
    var e := SyncDirectory(d);
    assert NamesGrow(d, e) by {
      forall n ensures NameOk(d, n) && NameOk(e, n)
          && (Record(n) in d.visible ==> Record(n) in e.visible && ValueAt(e, n) == ValueAt(d, n))
          && (Record(n) in d.durable ==> Record(n) in e.durable)
      {
        assert NameOk(d, n) && NameOk(e, n);
      }
    }
  }

  lemma LinkRecordKeeps(d: Disk, v: Value, ino: Ino)
    requires NamesOk(d) && Consistent(d)
    requires ino in d.files && d.files[ino] == File(Whole(v), true) && Record(NameOf(v)) !in d.visible
    ensures var e := LinkRecord(d, NameOf(v), ino);
            && NamesOk(e) && Consistent(e) && NamesGrow(d, e)
            && View(e) == LinkCells(View(d), v) && Record(NameOf(v)) in e.visible && ValueAt(e, NameOf(v)) == v
  {
    var e := LinkRecord(d, NameOf(v), ino);
    LinkRefines(d, v, ino);
    AppendConsistent(d, e.visible, Linked(Record(NameOf(v)), ino));
    assert NamesGrow(d, e) by {
      forall n ensures NameOk(d, n) && NameOk(e, n)
          && (Record(n) in d.visible ==> Record(n) in e.visible && ValueAt(e, n) == ValueAt(d, n))
          && (Record(n) in d.durable ==> Record(n) in e.durable)
      {
        assert NameOk(d, n) && NameOk(e, n);
      }
    }
  }

  /** What one call's step does to the shared disk: it may change its own staged file and bind a
      free record name to it, nothing else that others could notice. */
  ghost predicate Local(d: Disk, p: Proc, e: Disk, q: Proc) {
    && (forall i | i in d.files :: i in e.files && (e.files[i] == d.files[i] || (OwnsFile(p.pc) && i == p.ino)))
    && (forall n | Record(n) in e.visible ::
          if Record(n) in d.visible then e.visible[Record(n)] == d.visible[Record(n)]
          else OwnsFile(p.pc) && e.visible[Record(n)] == p.ino)
    && (OwnsFile(q.pc) ==> (OwnsFile(p.pc) && q.ino == p.ino) || q.ino !in d.files)
  }

  ghost predicate StepOk(d: Disk, p: Proc, e: Disk, q: Proc)
    requires NamesOk(d)
  {
    && NamesOk(e) && Consistent(e) && NamesGrow(d, e) && RestsOnDurable(View(e))
    && ProcOk(e, q) && Local(d, p, e, q)
  }

  lemma RaiseKeeps(d: Disk, p: Proc)
    requires NamesOk(d) && Consistent(d) && RestsOnDurable(View(d)) && ProcOk(d, p) && !p.pc.Returned?
    ensures StepOk(d, p, d, Raised(p))
  {
  }

  lemma ReadOneKeeps(d: Disk, p: Proc, k: nat)
    requires NamesOk(d) && Consistent(d) && RestsOnDurable(View(d)) && ProcOk(d, p)
    requires p.pc == ReadPhase(k) && k < 4
    ensures StepOk(d, p, d, Seen(p, k, Find(d, PhaseName(k))))
  {
    assert NameOk(d, PhaseName(k));
    if k == 0 { assert PhaseName(k) == LaunchName; }
    else if k == 1 { assert PhaseName(k) == AdmittedName; }
    else if k == 2 { assert PhaseName(k) == StoppedName; }
    else { assert PhaseName(k) == AcknowledgedName; }
  }

  lemma ReadKeeps(d: Disk, p: Proc, ch: Choice)
    requires NamesOk(d) && Consistent(d) && RestsOnDurable(View(d)) && ProcOk(d, p)
    requires p.pc.ReadPhase? && Allows(d, p, ch) && !ch.Raise?
    ensures StepOk(d, p, Act(d, p, ch).0, Act(d, p, ch).1)
  {
    if p.pc.next < 4 { ReadOneKeeps(d, p, p.pc.next); } else { RaiseKeeps(d, p); }
  }

  lemma ChooseKeeps(d: Disk, p: Proc, ch: Choice)
    requires NamesOk(d) && Consistent(d) && RestsOnDurable(View(d)) && ProcOk(d, p)
    requires p.pc.Choose? && Allows(d, p, ch) && !ch.Raise?
    ensures StepOk(d, p, Act(d, p, ch).0, Act(d, p, ch).1)
  {
  }

  lemma SyncChainKeeps(d: Disk, p: Proc, ch: Choice)
    requires NamesOk(d) && Consistent(d) && RestsOnDurable(View(d)) && ProcOk(d, p)
    requires p.pc.SyncChain? && Allows(d, p, ch) && !ch.Raise?
    ensures StepOk(d, p, Act(d, p, ch).0, Act(d, p, ch).1)
  {
    SyncDirectoryKeeps(d);
  }

  lemma FoundKeeps(d: Disk, p: Proc, found: Content, next: Pc)
    requires NamesOk(d) && Consistent(d) && RestsOnDurable(View(d)) && ProcOk(d, p)
    requires (p.pc.FirstRead? && next.SyncResult?) || (p.pc.SecondRead? && next.UnlinkStaged?)
    requires Find(d, p.name) == Some(found)
    ensures StepOk(d, p, d, Accept(p, found, next))
  {
    assert NameOk(d, p.name);
  }

  lemma FirstReadKeeps(d: Disk, p: Proc, ch: Choice)
    requires NamesOk(d) && Consistent(d) && RestsOnDurable(View(d)) && ProcOk(d, p)
    requires p.pc.FirstRead? && Allows(d, p, ch) && !ch.Raise?
    ensures StepOk(d, p, Act(d, p, ch).0, Act(d, p, ch).1)
  {
    match Find(d, p.name)
    case Some(found) => FoundKeeps(d, p, found, SyncResult);
    case None => if p.kind.Adopt? && !ch.Chosen? { RaiseKeeps(d, p); }
  }

  lemma SecondReadKeeps(d: Disk, p: Proc, ch: Choice)
    requires NamesOk(d) && Consistent(d) && RestsOnDurable(View(d)) && ProcOk(d, p)
    requires p.pc.SecondRead? && Allows(d, p, ch) && !ch.Raise?
    ensures StepOk(d, p, Act(d, p, ch).0, Act(d, p, ch).1)
  {
    match Find(d, p.name)
    case Some(found) => FoundKeeps(d, p, found, UnlinkStaged);
    case None => RaiseKeeps(d, p);
  }

  lemma StageKeeps(d: Disk, p: Proc, ch: Choice)
    requires NamesOk(d) && Consistent(d) && RestsOnDurable(View(d)) && ProcOk(d, p)
    requires (p.pc.CreateStaged? || p.pc.WriteStaged? || p.pc.SyncStaged?) && Allows(d, p, ch) && !ch.Raise?
    ensures StepOk(d, p, Act(d, p, ch).0, Act(d, p, ch).1)
  {
    if p.pc.CreateStaged? { CreateKeeps(d, ch.staged, ch.ino); }
    else if p.pc.WriteStaged? { FileKeeps(d, p.ino, File(Whole(p.want.value), false)); }
    else { FileKeeps(d, p.ino, d.files[p.ino].(synced := true)); }
  }

  /** The one step that publishes: the name was free, and the chain below it is durable. */
  lemma LinkKeeps(d: Disk, p: Proc, ch: Choice)
    requires NamesOk(d) && Consistent(d) && RestsOnDurable(View(d)) && ProcOk(d, p)
    requires p.pc.LinkName? && Allows(d, p, ch) && !ch.Raise?
    ensures StepOk(d, p, Act(d, p, ch).0, Act(d, p, ch).1)
  {
    if Record(p.name) !in d.visible {
      LinkRecordKeeps(d, p.want.value, p.ino);
      GrowthImproves(d, LinkRecord(d, p.name, p.ino));
      assert NameOk(d, p.name);
    }
  }

  lemma FinishKeeps(d: Disk, p: Proc, ch: Choice)
    requires NamesOk(d) && Consistent(d) && RestsOnDurable(View(d)) && ProcOk(d, p)
    requires (p.pc.UnlinkStaged? || p.pc.SyncResult? || p.pc.Cleanup?) && Allows(d, p, ch) && !ch.Raise?
    ensures StepOk(d, p, Act(d, p, ch).0, Act(d, p, ch).1)
  {
    assert NameOk(d, p.name);
    if p.pc.SyncResult? { SyncDirectoryKeeps(d); assert NameOk(SyncDirectory(d), p.name); }
    else { UnlinkKeeps(d, p.staged); assert NameOk(Unlink(d, p.staged), p.name); }
  }

  lemma ActKeeps(d: Disk, p: Proc, ch: Choice)
    requires NamesOk(d) && Consistent(d) && RestsOnDurable(View(d)) && ProcOk(d, p)
    requires !p.pc.Returned? && !p.pc.Failed? && Allows(d, p, ch)
    ensures StepOk(d, p, Act(d, p, ch).0, Act(d, p, ch).1)
  {
    if ch.Raise? { RaiseKeeps(d, p); }
    else {
      match p.pc
      case ReadPhase(_) => ReadKeeps(d, p, ch);
      case SyncChain => SyncChainKeeps(d, p, ch);
      case Choose => ChooseKeeps(d, p, ch);
      case FirstRead => FirstReadKeeps(d, p, ch);
      case CreateStaged => StageKeeps(d, p, ch);
      case WriteStaged => StageKeeps(d, p, ch);
      case SyncStaged => StageKeeps(d, p, ch);
      case LinkName => LinkKeeps(d, p, ch);
      case SecondRead => SecondReadKeeps(d, p, ch);
      case UnlinkStaged => FinishKeeps(d, p, ch);
      case SyncResult => FinishKeeps(d, p, ch);
      case Cleanup => FinishKeeps(d, p, ch);
    }
  }

  lemma MoveKeeps(w: World, pid: Pid, ch: Choice)
    requires Inv(w) && Enabled(w, Move(pid, ch))
    ensures Inv(Next(w, Move(pid, ch)))
  {
    var d, p := w.disk, w.procs[pid];
    ActKeeps(d, p, ch);
    var (e, q) := Act(d, p, ch);
    forall b | b in w.procs && b != pid ensures ProcOk(e, w.procs[b]) {
      BystanderKeeps(d, e, w.procs[b]);
    }
    forall r | r in Next(w, Move(pid, ch)).returned
      ensures Record(r.0) in e.durable && NameOk(e, r.0) && ValueAt(e, r.0) == r.1
    {
      assert NameOk(d, r.0) && NameOk(e, r.0);
    }
  }

  lemma CrashKeeps(w: World, kept: set<nat>)
    requires Inv(w)
    ensures Inv(Next(w, MachineCrash(kept)))
  {
    CrashRefines(w.disk, kept);
    forall r | r in w.returned
      ensures Record(r.0) in Crash(w.disk, kept).durable && NameOk(Crash(w.disk, kept), r.0) && ValueAt(Crash(w.disk, kept), r.0) == r.1
    {
      assert NameOk(w.disk, r.0);
      CrashKeepsName(w.disk, kept, r.0);
    }
  }

  /** The inductive step. */
  lemma NextKeeps(w: World, l: Label)
    requires Inv(w) && Enabled(w, l)
    ensures Inv(Next(w, l))
  {
    match l
    case Call(pid, kind, name) => {}
    case Move(pid, ch) => MoveKeeps(w, pid, ch);
    case Kill(pid) => {}
    case MachineCrash(kept) => CrashKeeps(w, kept);
  }

  // ---- every run ----------------------------------------------------------------------------

  lemma {:induction false} Reachable(t: seq<World>, labels: seq<Label>, i: nat)
    requires Behaviour(t, labels) && i < |t|
    ensures Inv(t[i])
  {
    if i == 0 {
      assert forall n :: NameOk(EMPTY_DISK, n);
    } else {
      Reachable(t, labels, i - 1);
      NextKeeps(t[i - 1], labels[i - 1]);
    }
  }

  lemma {:induction false} ReturnedForever(t: seq<World>, labels: seq<Label>, i: nat, j: nat)
    requires Behaviour(t, labels) && i <= j < |t|
    ensures t[i].returned <= t[j].returned
    decreases j - i
  {
    if i < j { ReturnedForever(t, labels, i + 1, j); }
  }

  /** Agreement: any two calls for one name that ever return, before or after any crashes, return
      the same record, and from then on that record is durable under that name. */
  lemma Agreement(t: seq<World>, labels: seq<Label>, i: nat, j: nat, k: nat, name: Name, v: Value, u: Value)
    requires Behaviour(t, labels) && i <= k < |t| && j <= k
    requires (name, v) in t[i].returned && (name, u) in t[j].returned
    ensures v == u
    ensures Record(name) in t[k].disk.durable && NameOk(t[k].disk, name) && ValueAt(t[k].disk, name) == v
  {
    Reachable(t, labels, k);
    ReturnedForever(t, labels, i, k);
    ReturnedForever(t, labels, j, k);
    assert NameOk(t[k].disk, name);
  }

  /** A call that has returned stands for the durable record; one that lost the race and staged
      something else never returns its own nonce or proof. */
  lemma LoserAdoptsWinner(t: seq<World>, labels: seq<Label>, i: nat, pid: Pid)
    requires Behaviour(t, labels) && i < |t| && pid in t[i].procs && t[i].procs[pid].pc.Returned?
    ensures var p, d := t[i].procs[pid], t[i].disk;
            && p.want.Some? && NameOk(d, p.name) && Record(p.name) in d.visible
            && Record(p.name) in d.durable && p.want.value == ValueAt(d, p.name)
            && (p.own.Some? && p.own.value != ValueAt(d, p.name) ==> p.want != p.own)
  {
    Reachable(t, labels, i);
    assert NameOk(t[i].disk, t[i].procs[pid].name);
  }

  /** No record name, visible or durable, is ever bound to a torn or unsynced file. */
  lemma NoTornRecord(t: seq<World>, labels: seq<Label>, i: nat, name: Name)
    requires Behaviour(t, labels) && i < |t|
    ensures NameOk(t[i].disk, name)
    ensures Find(t[i].disk, name) != Some(Torn)
  {
    Reachable(t, labels, i);
    assert NameOk(t[i].disk, name);
  }

  /** At every moment, and so after every crash, the phases form a prefix of launch, admitted,
      stopped, acknowledged with correct links, each resting on a durable predecessor. */
  lemma SurvivingPrefix(t: seq<World>, labels: seq<Label>, i: nat)
    requires Behaviour(t, labels) && i < |t|
    ensures NamesOk(t[i].disk) && RestsOnDurable(View(t[i].disk)) && ChainAccepts(View(t[i].disk))
  {
    Reachable(t, labels, i);
  }

  /** What a step can be, seen through the cells. */
  ghost predicate CellStep(d: RunDir, e: RunDir) {
    || e == d
    || e == SyncDir(d)
    || (exists survivors :: e == CrashDir(d, survivors))
    || (exists v :: Free(d, NameOf(v)) && e == LinkCells(d, v))
  }

  predicate Free(d: RunDir, n: Name) {
    match n
    case ClaimName => d.claim.Absent?
    case LaunchName => d.launch.Absent?
    case AdmittedName => d.admitted.Absent?
    case StoppedName => d.stopped.Absent?
    case AcknowledgedName => d.acknowledged.Absent?
  }

  lemma ActRefines(d: Disk, p: Proc, ch: Choice)
    requires NamesOk(d) && Consistent(d) && RestsOnDurable(View(d)) && ProcOk(d, p)
    requires !p.pc.Returned? && !p.pc.Failed? && Allows(d, p, ch)
    ensures NamesOk(Act(d, p, ch).0) && CellStep(View(d), View(Act(d, p, ch).0))
  {
    ActKeeps(d, p, ch);
    if ch.Raise? {
    } else if p.pc.SyncChain? || p.pc.SyncResult? { SyncDirectoryKeeps(d);
    } else if p.pc.CreateStaged? { CreateKeeps(d, ch.staged, ch.ino);
    } else if p.pc.WriteStaged? { FileKeeps(d, p.ino, File(Whole(p.want.value), false));
    } else if p.pc.SyncStaged? { FileKeeps(d, p.ino, d.files[p.ino].(synced := true));
    } else if p.pc.UnlinkStaged? || p.pc.Cleanup? { UnlinkKeeps(d, p.staged);
    } else if p.pc.LinkName? && Record(p.name) !in d.visible {
      LinkRecordKeeps(d, p.want.value, p.ino);
      assert NameOk(d, p.name);
      assert Free(View(d), NameOf(p.want.value));
    }
  }

  /** Refinement: with inodes, staged names, torn files and pending changes forgotten, every step
      is nothing, a directory fsync, a crash, or the link of a free name. */
  lemma StepsRefineCells(t: seq<World>, labels: seq<Label>, i: nat)
    requires Behaviour(t, labels) && i < |labels|
    ensures NamesOk(t[i].disk) && NamesOk(t[i + 1].disk)
    ensures CellStep(View(t[i].disk), View(t[i + 1].disk))
  {
    Reachable(t, labels, i);
    Reachable(t, labels, i + 1);
    match labels[i]
    case Call(_, _, _) => {}
    case Kill(_) => {}
    case Move(pid, ch) => ActRefines(t[i].disk, t[i].procs[pid], ch);
    case MachineCrash(kept) => CrashRefines(t[i].disk, kept);
  }
}
