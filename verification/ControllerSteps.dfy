/** The whole system: process steps, the environment, kills and machine crashes. */
module ControllerSteps {
  import opened Records
  import opened RunDirectory
  import opened ControllerState
  import opened ControllerInvariant
  import opened ControllerProof

  lemma SetupStep(c: Core, pid: Pid, p: Proc, ch: Choice)
    requires CoreInv(c) && FieldsOk(c, pid, p) && At(c, p) && SetupPc(p.pc) && SetupAllows(c, p, ch) && !ch.Raise?
    ensures CoreInv(Setup(c, p, ch).0) && ProcOk(Setup(c, p, ch).0, pid, Setup(c, p, ch).1)
  {
    match p.pc
    case Scan => ScanKeeps(c, pid, p, ch);
    case ScanSync => ScanSyncKeeps(c, pid, p, ch);
    case CheckFresh => MakeDirKeeps(c, pid, p, ch);
    case MakeDir => MakeDirKeeps(c, pid, p, ch);
    case SyncDirs => SyncDirsKeeps(c, pid, p, ch);
    case LinkTicket => LinkTicketKeeps(c, pid, p, ch);
    case SyncTicket(_) => SyncTicketKeeps(c, pid, p, ch);
    case ClaimLease => AdmissionKeeps(c, pid, p, ch);
    case FirstTick => AdmissionKeeps(c, pid, p, ch);
    case Fetch => AdmissionKeeps(c, pid, p, ch);
  }

  lemma LinkStep(c: Core, pid: Pid, p: Proc, ch: Choice)
    requires CoreInv(c) && FieldsOk(c, pid, p) && At(c, p) && p.pc.Link? && JournalAllows(c, p, ch) && !ch.Raise?
    ensures CoreInv(Journal(c, p, ch).0) && ProcOk(Journal(c, p, ch).0, pid, Journal(c, p, ch).1)
  {
    match p.pc.draft
    case LaunchDraft(_) => LinkLaunchKeeps(c, pid, p, ch);
    case AdmittedDraft(_) => LinkAdmittedKeeps(c, pid, p, ch);
    case StoppedDraft(_) => LinkStoppedKeeps(c, pid, p, ch);
    case AcknowledgedDraft(_) => LinkAcknowledgedKeeps(c, pid, p, ch);
  }

  lemma SyncStep(c: Core, pid: Pid, p: Proc, ch: Choice)
    requires CoreInv(c) && FieldsOk(c, pid, p) && At(c, p) && p.pc.SyncPhase? && JournalAllows(c, p, ch) && !ch.Raise?
    ensures CoreInv(Journal(c, p, ch).0) && ProcOk(Journal(c, p, ch).0, pid, Journal(c, p, ch).1)
  {
    match p.pc.draft
    case LaunchDraft(_) => SyncLaunchKeeps(c, pid, p, ch);
    case AdmittedDraft(_) => SyncAdmittedKeeps(c, pid, p, ch);
    case StoppedDraft(_) => SyncStoppedKeeps(c, pid, p, ch);
    case AcknowledgedDraft(_) => SyncAcknowledgedKeeps(c, pid, p, ch);
  }

  lemma ExecutionStep(c: Core, pid: Pid, p: Proc, ch: Choice)
    requires CoreInv(c) && FieldsOk(c, pid, p) && At(c, p) && UnitAllows(c, p, ch) && !ch.Raise?
    requires p.pc.LaunchUnit? || p.pc.AwaitReady? || p.pc.Capture? || p.pc.TickBeforeGo? || p.pc.SendGo? || p.pc.AwaitOutput?
    ensures CoreInv(Physical(c, pid, p, ch).0) && ProcOk(Physical(c, pid, p, ch).0, pid, Physical(c, pid, p, ch).1)
  {
    if p.pc.LaunchUnit? {
      LaunchKeeps(c, pid, p, ch);
    } else if p.pc.AwaitReady? {
      CaptureKeeps(c, pid, p, ch);
    } else if p.pc.Capture? {
      CaptureKeeps(c, pid, p, ch);
    } else if p.pc.TickBeforeGo? {
      TickBeforeGoKeeps(c, pid, p, ch);
    } else if p.pc.SendGo? {
      GoKeeps(c, pid, p, ch);
    } else if p.pc.AwaitOutput? {
      OutputKeeps(c, pid, p, ch);
    }
  }

  lemma SealingStep(c: Core, pid: Pid, p: Proc, ch: Choice)
    requires CoreInv(c) && FieldsOk(c, pid, p) && At(c, p) && UnitAllows(c, p, ch) && !ch.Raise?
    requires p.pc.WaitStopped? || p.pc.LoadStopped? || p.pc.Release? || p.pc.TickAfterSeal? || p.pc.StopUnit? || p.pc.Retain?
    ensures CoreInv(Physical(c, pid, p, ch).0) && ProcOk(Physical(c, pid, p, ch).0, pid, Physical(c, pid, p, ch).1)
  {
    if p.pc.WaitStopped? {
      WaitKeeps(c, pid, p, ch);
    } else if p.pc.LoadStopped? {
      LoadStoppedKeeps(c, pid, p, ch);
    } else if p.pc.Release? {
      ReleaseKeeps(c, pid, p, ch);
    } else if p.pc.TickAfterSeal? {
      StopUnitKeeps(c, pid, p, ch);
    } else if p.pc.StopUnit? {
      StopUnitKeeps(c, pid, p, ch);
    } else if p.pc.Retain? {
      StopUnitKeeps(c, pid, p, ch);
    }
  }

  lemma NetworkStep(c: Core, pid: Pid, p: Proc, ch: Choice)
    requires CoreInv(c) && FieldsOk(c, pid, p) && At(c, p) && NetworkPc(p.pc) && NetworkAllows(c, p, ch) && !ch.Raise?
    ensures CoreInv(Network(c, pid, p, ch).0) && ProcOk(Network(c, pid, p, ch).0, pid, Network(c, pid, p, ch).1)
  {
    match p.pc
    case SendComplete(_) => SendCompleteKeeps(c, pid, p, ch);
    case SendStop => SendStopKeeps(c, pid, p, ch);
    case AwaitComplete => ReplyKeeps(c, pid, p, ch);
    case AwaitStop => ReplyKeeps(c, pid, p, ch);
    case Status => StatusKeeps(c, pid, p, ch);
  }

  lemma RecoveryStep(c: Core, pid: Pid, p: Proc, ch: Choice)
    requires CoreInv(c) && FieldsOk(c, pid, p) && At(c, p) && RecoveryPc(p.pc) && RecoveryAllows(ch) && !ch.Raise?
    ensures CoreInv(Recovery(c, p, ch).0) && ProcOk(Recovery(c, p, ch).0, pid, Recovery(c, p, ch).1)
  {
    match p.pc
    case EnterAbort => EnterAbortKeeps(c, pid, p, ch);
    case AbortLoad => AbortLoadKeeps(c, pid, p, ch);
    case LoadExisting => LoadExistingKeeps(c, pid, p, ch);
    case ReloadChain => ReloadKeeps(c, pid, p, ch);
  }

  /** A raised exception changes nothing but where the process goes. */
  lemma RaiseShape(c: Core, pid: Pid, p: Proc, ch: Choice)
    requires Allows(c, p, ch) && ch.Raise?
    ensures Act(c, pid, p, ch) == (c, Fail(p))
  {
  }

  lemma JournalStep(c: Core, pid: Pid, p: Proc, ch: Choice)
    requires CoreInv(c) && FieldsOk(c, pid, p) && At(c, p) && JournalPc(p.pc) && JournalAllows(c, p, ch) && !ch.Raise?
    ensures CoreInv(Journal(c, p, ch).0) && ProcOk(Journal(c, p, ch).0, pid, Journal(c, p, ch).1)
  {
    if p.pc.Barrier? { BarrierKeeps(c, pid, p, ch);
    } else if p.pc.Link? { LinkStep(c, pid, p, ch);
    } else { SyncStep(c, pid, p, ch); }
  }

  lemma PhysicalStep(c: Core, pid: Pid, p: Proc, ch: Choice)
    requires CoreInv(c) && FieldsOk(c, pid, p) && At(c, p) && UnitPc(p.pc) && UnitAllows(c, p, ch) && !ch.Raise?
    ensures CoreInv(Physical(c, pid, p, ch).0) && ProcOk(Physical(c, pid, p, ch).0, pid, Physical(c, pid, p, ch).1)
  {
    if p.pc.LaunchUnit? || p.pc.AwaitReady? || p.pc.Capture? || p.pc.TickBeforeGo? || p.pc.SendGo? || p.pc.AwaitOutput? {
      ExecutionStep(c, pid, p, ch);
    } else { SealingStep(c, pid, p, ch); }
  }

  lemma ActKeeps(c: Core, pid: Pid, p: Proc, ch: Choice)
    requires CoreInv(c) && FieldsOk(c, pid, p) && At(c, p) && Allows(c, p, ch)
    ensures CoreInv(Act(c, pid, p, ch).0) && ProcOk(Act(c, pid, p, ch).0, pid, Act(c, pid, p, ch).1)
  {
    if ch.Raise? {
      RaiseShape(c, pid, p, ch);
      FailKeeps(c, pid, p);
    } else if SetupPc(p.pc) { SetupStep(c, pid, p, ch);
    } else if JournalPc(p.pc) { JournalStep(c, pid, p, ch);
    } else if UnitPc(p.pc) { PhysicalStep(c, pid, p, ch);
    } else if NetworkPc(p.pc) { NetworkStep(c, pid, p, ch);
    } else { RecoveryStep(c, pid, p, ch); }
  }

  // ---- the environment --------------------------------------------------------------------

  /** Units only move towards stopped. */
  ghost predicate UnitsMove(c: Core, c1: Core) {
    && c1 == c.(units := c1.units) && c1.units.Keys == c.units.Keys
    && forall u | u in c.units ::
         && c1.units[u] == c.units[u].(status := c1.units[u].status)
         && (c.units[u].status.UnitStopped? ==> c1.units[u].status == c.units[u].status)
  }

  lemma UnitMoveKeepsCore(c: Core, c1: Core)
    requires CoreInv(c) && UnitsMove(c, c1)
    ensures CoreInv(c1)
  {
    forall r | r in c1.dirs ensures DirOk(c1, r) { assert DirOk(c, r); }
    forall u | u in c1.units ensures UnitOk(c1, u) { assert UnitOk(c, u); }
    forall e | e in c1.history ensures EventOk(c1, e) { assert EventOk(c, e); }
    forall u, v | Unstopped(c1, u) && Unstopped(c1, v) ensures u == v {
      assert Unstopped(c, u) && Unstopped(c, v);
    }
  }

  /** The environment moves no file and sends nothing: units move on, the server accepts more. */
  ghost predicate Calm(c: Core, c1: Core) {
    && c1.dirs == c.dirs && c1.history == c.history && c1.units.Keys == c.units.Keys
    && (forall u | u in c.units ::
         && c1.units[u] == c.units[u].(status := c1.units[u].status)
         && (c.units[u].status.UnitStopped? ==> c1.units[u].status == c.units[u].status))
    && (forall r | r in c.completed :: r in c1.completed && c1.completed[r] == c.completed[r])
  }

  lemma CalmFields(c: Core, c1: Core, pid: Pid, p: Proc)
    requires FieldsOk(c, pid, p) && Calm(c, c1)
    ensures FieldsOk(c1, pid, p)
  {
  }

  lemma CalmSeal(c: Core, c1: Core, p: Proc)
    requires Calm(c, c1)
    ensures SealedHere(c, p) ==> SealedHere(c1, p)
    ensures AdmittedDurably(c, p) ==> AdmittedDurably(c1, p)
    ensures NoUnit(c, p.run) ==> NoUnit(c1, p.run)
    ensures Fresh(c, p) ==> Fresh(c1, p)
  {
  }

  lemma CalmJournal(c: Core, c1: Core, p: Proc)
    requires Calm(c, c1) && JournalPc(p.pc) && At(c, p)
    ensures At(c1, p)
  {
    CalmSeal(c, c1, p);
  }

  lemma CalmElsewhere(c: Core, c1: Core, p: Proc)
    requires Calm(c, c1) && !JournalPc(p.pc) && At(c, p)
    ensures At(c1, p)
  {
    CalmSeal(c, c1, p);
  }

  lemma CalmKeepsProc(c: Core, c1: Core, pid: Pid, p: Proc)
    requires ProcOk(c, pid, p) && Calm(c, c1)
    ensures ProcOk(c1, pid, p)
  {
    if Critical(p.pc) {
      CalmFields(c, c1, pid, p);
      if JournalPc(p.pc) { CalmJournal(c, c1, p); } else { CalmElsewhere(c, c1, p); }
    }
  }

  lemma AcceptanceKeeps(c: Core, pid: Pid, r: Run, lease: Nonce, output: Output)
    requires CoreInv(c) && r !in c.completed && CompleteSent(pid, r, lease, output) in c.history
    ensures CoreInv(c.(completed := c.completed[r := Accepted(lease, output)]))
  {
    var c1 := c.(completed := c.completed[r := Accepted(lease, output)]);
    forall s | s in c1.dirs ensures DirOk(c1, s) { assert DirOk(c, s); }
    forall u | u in c1.units ensures UnitOk(c1, u) { assert UnitOk(c, u); }
    forall e | e in c1.history ensures EventOk(c1, e) { assert EventOk(c, e); }
    forall u, v | Unstopped(c1, u) && Unstopped(c1, v) ensures u == v {
      assert Unstopped(c, u) && Unstopped(c, v);
    }
    forall s | s in c1.completed
      ensures exists q :: CompleteSent(q, s, c1.completed[s].lease, c1.completed[s].output) in c1.history
    {
      if s == r {
        assert CompleteSent(pid, s, c1.completed[s].lease, c1.completed[s].output) in c1.history;
      } else {
        var q :| CompleteSent(q, s, c.completed[s].lease, c.completed[s].output) in c.history;
        assert CompleteSent(q, s, c1.completed[s].lease, c1.completed[s].output) in c1.history;
      }
    }
  }

  // ---- a machine crash --------------------------------------------------------------------

  /** Whatever was durable is still there, and the chain still rests on durable predecessors. */
  lemma CrashedDirOk(c: Core, c1: Core, r: Run, survivors: set<Name>)
    requires r in c.dirs && DirOk(c, r) && r in c1.dirs && c1.dirs[r] == CrashDir(c.dirs[r], survivors)
    requires c1.units == c.units && c1.completed == c.completed
    ensures DirOk(c1, r) && KeepsDurable(c.dirs[r], c1.dirs[r])
  {
  }

  lemma CrashKeeps(c: Core, kept: set<Run>, names: set<(Run, Name)>)
    requires CoreInv(c)
    ensures CoreInv(c.(dirs := CrashDirs(c.dirs, kept, names)))
  {
    var c1 := c.(dirs := CrashDirs(c.dirs, kept, names));
    forall r | r in c1.dirs ensures DirOk(c1, r) && KeepsDurable(c.dirs[r], c1.dirs[r]) {
      assert DirOk(c, r);
      CrashedDirOk(c, c1, r, SurvivingNames(names, r));
    }
    forall r | r in c.dirs && c.dirs[r].entryDurable ensures r in c1.dirs {}
    forall u | u in c1.units ensures UnitOk(c1, u) { assert UnitOk(c, u); }
    forall e | e in c1.history ensures EventOk(c1, e) { assert EventOk(c, e); }
    forall u, v | Unstopped(c1, u) && Unstopped(c1, v) ensures u == v {
      assert Unstopped(c, u) && Unstopped(c, v);
    }
  }

  // ---- all of it --------------------------------------------------------------------------

  lemma NeverRestarts(c: Core, pid: Pid, p: Proc, ch: Choice)
    requires Critical(p.pc) && Allows(c, p, ch)
    ensures !Act(c, pid, p, ch).1.pc.Start?
  {
  }

  lemma MoveShape(w: World, pid: Pid, ch: Choice)
    requires Enabled(w, Move(pid, ch))
    ensures var (c, p) := Act(w.core, pid, w.procs[pid], ch);
            Next(w, Move(pid, ch)) == World(c, if Critical(p.pc) then w.lock else None, w.procs[pid := p], w.spawned)
  {
  }

  /** Only one process is inside, so a step of it cannot disturb another. */
  lemma MoveKeeps(w: World, pid: Pid, ch: Choice)
    requires Inv(w) && Enabled(w, Move(pid, ch))
    ensures Inv(Next(w, Move(pid, ch)))
  {
    var p := w.procs[pid];
    MoveShape(w, pid, ch);
    NeverRestarts(w.core, pid, p, ch);
    var (c1, p1) := Act(w.core, pid, p, ch);
    assert CoreInv(c1) && ProcOk(c1, pid, p1) by {
      assert ProcOk(w.core, pid, p);
      ActKeeps(w.core, pid, p, ch);
    }
    InsideMoves(w, pid, c1, p1);
  }

  lemma InsideMoves(w: World, pid: Pid, c: Core, p: Proc)
    requires Inv(w) && pid in w.procs && Critical(w.procs[pid].pc)
    requires CoreInv(c) && ProcOk(c, pid, p) && !p.pc.Start?
    ensures Inv(World(c, if Critical(p.pc) then w.lock else None, w.procs[pid := p], w.spawned))
  {
  }

  lemma SpawnKeeps(w: World, pid: Pid, run: Run, reconcile: bool)
    requires Inv(w) && Enabled(w, Spawn(pid, run, reconcile))
    ensures Inv(Next(w, Spawn(pid, run, reconcile)))
  {
    assert Next(w, Spawn(pid, run, reconcile)).procs[pid] == NewProc(run, reconcile);
  }

  /** Lock traffic and death: the core is untouched, and no process comes to be inside but the one
      that took the free lock. */
  lemma EntryIsOk(c: Core, pid: Pid, run: Run, reconcile: bool)
    ensures ProcOk(c, pid, NewProc(run, reconcile).(pc := if reconcile then LoadExisting else Scan))
  {
    var p := NewProc(run, reconcile).(pc := if reconcile then LoadExisting else Scan);
    assert FieldsOk(c, pid, p);
    Onward(c, pid, p, p);
  }

  lemma AcquireKeeps(w: World, pid: Pid)
    requires Inv(w) && Enabled(w, Acquire(pid))
    ensures Inv(Next(w, Acquire(pid)))
  {
    var run, reconcile :| w.procs[pid] == NewProc(run, reconcile);
    EntryIsOk(w.core, pid, run, reconcile);
  }

  lemma RefusedKeeps(w: World, pid: Pid)
    requires Inv(w) && Enabled(w, Refused(pid))
    ensures Inv(Next(w, Refused(pid)))
  {
  }

  lemma KillKeeps(w: World, pid: Pid)
    requires Inv(w) && Enabled(w, Kill(pid))
    ensures Inv(Next(w, Kill(pid)))
  {
  }

  lemma CrashKeepsAll(w: World, kept: set<Run>, names: set<(Run, Name)>)
    requires Inv(w)
    ensures Inv(Next(w, MachineCrash(kept, names)))
  {
    CrashKeeps(w.core, kept, names);
  }

  /** The manager's and the server's steps. */
  lemma OutsideKeeps(w: World, l: Label)
    requires Inv(w) && Enabled(w, l) && (l.UnitStarts? || l.UnitStops? || l.ServerCompletes?)
    ensures Inv(Next(w, l))
  {
    var c1 := Next(w, l).core;
    if l.ServerCompletes? {
      AcceptanceKeeps(w.core, l.pid, l.run, l.lease, l.output);
    } else {
      UnitMoveKeepsCore(w.core, c1);
    }
    forall q | q in w.procs ensures ProcOk(c1, q, w.procs[q]) { CalmKeepsProc(w.core, c1, q, w.procs[q]); }
  }

  /** The inductive step. */
  lemma NextKeeps(w: World, l: Label)
    requires Inv(w) && Enabled(w, l)
    ensures Inv(Next(w, l))
  {
    match l
    case Spawn(pid, run, reconcile) => SpawnKeeps(w, pid, run, reconcile);
    case Acquire(pid) => AcquireKeeps(w, pid);
    case Refused(pid) => RefusedKeeps(w, pid);
    case Kill(pid) => KillKeeps(w, pid);
    case Move(pid, ch) => MoveKeeps(w, pid, ch);
    case MachineCrash(kept, names) => CrashKeepsAll(w, kept, names);
    case UnitStarts(_) => OutsideKeeps(w, l);
    case UnitStops(_, _) => OutsideKeeps(w, l);
    case ServerCompletes(_, _, _, _) => OutsideKeeps(w, l);
  }
}
