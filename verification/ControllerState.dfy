/** The controller, its execution units and the server as one transition system.

    `Core` is everything that outlives a controller process: the journal on disk, the
    units, what the server has accepted, and a history of what was ever sent or released.
    `Proc` is one controller process: the fields of the `Controller` object, the unit names
    its bus connection holds, and a program point. Every effect of `run`, `_seal`, `_abort`
    and `reconcile` is one step, and every step that can raise has a raising variant. */
module ControllerState {
  import opened Records
  import opened RunDirectory

  /** A unit that was requested may start at any later time, even when the reply was lost and
      the requesting process died. A stopped invocation never runs again. */
  datatype UnitStatus = UnitRequested | UnitRunning | UnitStopped(success: bool)

  datatype Unit = Unit(run: Run, launcher: Pid, identity: Identity, status: UnitStatus)

  /** What left the controller: the GO line, messages to the server, dropped references. */
  datatype Event =
    | GoSent(pid: Pid, run: Run, unit: UnitName)
    | CompleteSent(pid: Pid, run: Run, lease: Nonce, output: Output)
    | StopSent(pid: Pid, run: Run)
    | Released(pid: Pid, run: Run, identity: Identity)

  datatype Acceptance = Accepted(lease: Nonce, output: Output)

  datatype Core = Core(
    dirs: map<Run, RunDir>,
    units: map<UnitName, Unit>,
    completed: map<Run, Acceptance>,
    history: seq<Event>)

  datatype Mode = RunMode | AbortMode | ReconcileMode

  /** A record on its way to the disk. */
  datatype Draft =
    | LaunchDraft(launch: Launch)
    | AdmittedDraft(admitted: Admitted)
    | StoppedDraft(stopped: Stopped)
    | AcknowledgedDraft(acknowledged: Acknowledged)

  /** What a phase is about to be built from, before its chain barrier. */
  datatype Plan = PlanLaunch | PlanAdmitted | PlanStopped | PlanAcknowledged(outcome: Outcome)

  datatype Pc =
    | Start                                    // constructed; the worker lock is not held
    | Scan | ScanSync | CheckFresh | MakeDir | SyncDirs
    | LinkTicket | SyncTicket(ticket: Ticket)
    | ClaimLease | FirstTick | Fetch
    | Barrier(plan: Plan) | Link(draft: Draft) | SyncPhase(draft: Draft)
    | LaunchUnit | AwaitReady | Capture | TickBeforeGo | SendGo | AwaitOutput
    | WaitStopped | LoadStopped | Release | TickAfterSeal
    | SendComplete(output: Output) | AwaitComplete
    | EnterAbort | AbortLoad | StopUnit | SendStop | AwaitStop
    | LoadExisting | Retain | ReloadChain | Status
    | Finished

  datatype Proc = Proc(
    pc: Pc, mode: Mode, run: Run,
    scanned: set<Run>,
    ticket: Option<Ticket>,
    launch: Option<Launch>,
    identity: Option<Identity>,
    references: set<UnitName>,
    launched: set<UnitName>,
    output: Option<Output>,
    observation: Option<Observation>,
    sealed: Option<Stopped>,
    attempted: bool)

  /** `spawned` remembers every process there ever was, and whether it was a reconciler. */
  datatype World = World(core: Core, lock: Option<Pid>, procs: map<Pid, Proc>, spawned: map<Pid, bool>)

  /** What the world outside the code decides at a step. */
  datatype Choice =
    | Go                                       // the step succeeds
    | Raise                                    // it raises without an effect
    | Lost                                     // it takes effect, then raises
    | Scanned(run: Run)
    | FreshTicket(ticket: Ticket)
    | FreshUnit(unit: UnitName)
    | Invocation(invocation: nat)
    | Produced(output: Output)
    | Replied(receipt: Receipt)
    | StopReplied(run: Run, stopAck: bool)
    | Observed(success: bool)                  // the service result read with the stop

  const EMPTY_CORE := Core(map[], map[], map[], [])
  const EMPTY_WORLD := World(EMPTY_CORE, None, map[], map[])

  function NewProc(run: Run, reconcile: bool): Proc {
    Proc(Start, if reconcile then ReconcileMode else RunMode, run, {}, None, None, None, {}, {},
         None, None, None, false)
  }

  /** Does the process hold the worker lock at this point? */
  predicate Critical(pc: Pc) {
    !pc.Start? && !pc.Finished?
  }

  /** Before the `try` of `run`, a failure leaves without any cleanup. */
  predicate BeforeTry(pc: Pc) {
    pc.Start? || pc.Scan? || pc.ScanSync? || pc.CheckFresh? || pc.MakeDir? || pc.SyncDirs? || pc.LinkTicket? || pc.ClaimLease? || pc.FirstTick? || pc.SyncTicket?
  }

  /** Where an exception goes. */
  function Fail(p: Proc): Proc {
    if p.mode.RunMode? && !p.attempted && !BeforeTry(p.pc)
    then p.(mode := AbortMode, pc := EnterAbort, output := None)   // the output is not sealed by cleanup
    else p.(pc := Finished)
  }

  function Put(c: Core, run: Run, d: RunDir): Core {
    c.(dirs := c.dirs[run := d])
  }

  /** fsync of the directory that holds the Runs. */
  function SyncEntries(runs: map<Run, RunDir>): map<Run, RunDir> {
    map r | r in runs :: runs[r].(entryDurable := true)
  }

  function SyncRuns(c: Core): Core {
    c.(dirs := SyncEntries(c.dirs))
  }

  function DirOf(c: Core, run: Run): RunDir {
    if run in c.dirs then c.dirs[run] else FRESH_DIR
  }

  function Log(c: Core, e: Event): Core {
    c.(history := c.history + [e])
  }

  /** A receipt that says `completed` tells the truth about this server. */
  predicate Truthful(c: Core, receipt: Receipt) {
    receipt.state == ServerCompleted ==>
      receipt.run in c.completed && c.completed[receipt.run].lease == receipt.lease
  }

  // ---- run: admission, directory and ticket -------------------------------------------

  predicate SetupPc(pc: Pc) {
    pc.Scan? || pc.ScanSync? || pc.CheckFresh? || pc.MakeDir? || pc.SyncDirs? || pc.LinkTicket? || pc.ClaimLease? || pc.FirstTick? || pc.Fetch? || pc.SyncTicket?
  }

  /** One visited directory `unresolved` does not refuse: ticket, owner and chain are in order. */
  predicate ScanAccepts(d: RunDir, run: Run) {
    && d.claim.Present() && d.claim.record.run == run
    && ChainAccepts(d)
    && (d.launch.Present() ==> OwnedBy(d.launch.record, d.claim.record))
  }

  predicate SetupAllows(c: Core, p: Proc, ch: Choice) {
    match p.pc
    case Scan => ch.Raise? || (ch.Go? && p.scanned == c.dirs.Keys) || (ch.Scanned? && ch.run in c.dirs && ch.run !in p.scanned)
    case LinkTicket => ch.Raise? || (ch.FreshTicket? && ch.ticket.run == p.run)
    case _ => ch.Raise? || ch.Go?
  }

  function Setup(c: Core, p: Proc, ch: Choice): (Core, Proc)
    requires SetupPc(p.pc) && SetupAllows(c, p, ch)
  {
    if ch.Raise? then (c, Fail(p))
    else match p.pc
      case Scan =>
        if ch.Go? then (c, p.(pc := ScanSync))
        else if ScanAccepts(c.dirs[ch.run], ch.run)
        then (Put(c, ch.run, SyncDir(c.dirs[ch.run])), p.(scanned := p.scanned + {ch.run}))
        else (c, Fail(p))
      case ScanSync =>
        // the scan is complete; a Run without acknowledgement blocks new work
        (SyncRuns(c), if forall r | r in c.dirs :: c.dirs[r].acknowledged.Present() then p.(pc := CheckFresh) else Fail(p))
      case CheckFresh =>
        if p.run in c.dirs then (c, Fail(p)) else (c, p.(pc := MakeDir))
      case MakeDir =>
        // mkdir tolerates an existing directory
        (if p.run in c.dirs then c else Put(c, p.run, FRESH_DIR), p.(pc := SyncDirs))
      case SyncDirs =>
        // fsync of the child, then of `runs`
        if p.run in c.dirs
        then (SyncRuns(Put(c, p.run, SyncDir(c.dirs[p.run]))),
              p.(pc := LinkTicket))
        else (c, Fail(p))
      case LinkTicket =>
        if p.run !in c.dirs then (c, Fail(p))
        else
          var d := c.dirs[p.run];
          // the link never overwrites; a loser adopts the record that is there
          if d.claim.Present()
          then if d.claim.record.run == p.run then (c, p.(pc := SyncTicket(d.claim.record))) else (c, Fail(p))
          else (Put(c, p.run, d.(claim := Visible(ch.ticket))), p.(pc := SyncTicket(ch.ticket)))
      case SyncTicket(t) =>
        if p.run !in c.dirs then (c, Fail(p))
        else (Put(c, p.run, SyncDir(c.dirs[p.run])), p.(ticket := Some(t), pc := ClaimLease))
      case ClaimLease => (c, p.(pc := FirstTick))
      case FirstTick => (c, p.(pc := Fetch))
      case Fetch => (c, p.(pc := Barrier(PlanLaunch)))
  }

  // ---- the journal: chain barrier, no-overwrite link, directory fsync -----------------

  predicate JournalPc(pc: Pc) {
    pc.Barrier? || pc.Link? || pc.SyncPhase?
  }

  predicate UnitUnused(c: Core, u: UnitName) {
    && u !in c.units
    && forall r | r in c.dirs && c.dirs[r].launch.Present() :: c.dirs[r].launch.record.unit != u
  }

  predicate JournalAllows(c: Core, p: Proc, ch: Choice) {
    ch.Raise? || if p.pc == Barrier(PlanLaunch) then ch.FreshUnit? && UnitUnused(c, ch.unit) else ch.Go?
  }

  /** What a caller of `admit`, `stopped` or `acknowledge` brings. */
  datatype Values =
    | LaunchValues(run: Run, nonce: Nonce, freshUnit: UnitName)
    | AdmitValues(identity: Identity)
    | StopValues(observation: Observation, output: Option<Output>)
    | AckValues(outcome: Outcome)

  /** The one record a valid chain admits next, or again, for these values. */
  function Candidate(d: RunDir, values: Values): (r: Option<Draft>) {
    match values
    case LaunchValues(run, nonce, unit) =>
      Some(LaunchDraft(Launch(run, nonce, if d.launch.Present() then d.launch.record.unit else unit)))
    case AdmitValues(id) =>
      if d.launch.Absent? then None
      else
        var a := Admitted(LaunchDigest(d.launch.record), id);
        if ValidAdmitted(a, d.launch.record) then Some(AdmittedDraft(a)) else None
    case StopValues(o, output) =>
      if d.admitted.Absent? then None
      else
        var s := Stopped(AdmittedDigest(d.admitted.record), o, output, DigestOf(output));
        if ValidStopped(s, d.admitted.record) then Some(StoppedDraft(s)) else None
    case AckValues(outcome) =>
      if d.stopped.Absent? || d.launch.Absent? then None
      else
        var a := Acknowledged(StoppedDigest(d.stopped.record), outcome);
        if ValidAcknowledged(a, d.launch.record, d.stopped.record) then Some(AcknowledgedDraft(a)) else None
  }

  function ValuesOf(p: Proc, plan: Plan, ch: Choice): Option<Values> {
    match plan
    case PlanLaunch => if p.ticket.Some? && ch.FreshUnit? then Some(LaunchValues(p.ticket.value.run, p.ticket.value.nonce, ch.unit)) else None
    case PlanAdmitted => if p.identity.Some? then Some(AdmitValues(p.identity.value)) else None
    case PlanStopped => if p.observation.Some? then Some(StopValues(p.observation.value, p.output)) else None
    case PlanAcknowledged(outcome) => Some(AckValues(outcome))
  }

  /** The record a plan leads to, or None when `_advance` or `prepare` refuses it. */
  function DraftOf(d: RunDir, p: Proc, plan: Plan, ch: Choice): Option<Draft> {
    match ValuesOf(p, plan, ch)
    case None => None
    case Some(values) => Candidate(d, values)
  }

  /** `os.link` into a name: an existing equal record is kept, a different one conflicts. */
  function LinkCell<T(==)>(cell: Cell<T>, record: T): Option<Cell<T>> {
    if cell.Absent? then Some(Visible(record))
    else if cell.record == record then Some(cell) else None
  }

  function LinkDraft(d: RunDir, draft: Draft): Option<RunDir> {
    match draft
    case LaunchDraft(l) =>
      (match LinkCell(d.launch, l) case None => None case Some(x) => Some(d.(launch := x)))
    case AdmittedDraft(a) =>
      (match LinkCell(d.admitted, a) case None => None case Some(x) => Some(d.(admitted := x)))
    case StoppedDraft(s) =>
      (match LinkCell(d.stopped, s) case None => None case Some(x) => Some(d.(stopped := x)))
    case AcknowledgedDraft(a) =>
      (match LinkCell(d.acknowledged, a) case None => None case Some(x) => Some(d.(acknowledged := x)))
  }

  /** Where the code goes on once a phase is durable. */
  function AfterPhase(p: Proc, draft: Draft): Proc {
    match draft
    case LaunchDraft(l) => p.(launch := Some(l), pc := LaunchUnit)
    case AdmittedDraft(_) => p.(pc := if p.mode.RunMode? then TickBeforeGo else WaitStopped)
    case StoppedDraft(_) => p.(pc := Release)
    case AcknowledgedDraft(_) => p.(pc := Finished)
  }

  function Journal(c: Core, p: Proc, ch: Choice): (Core, Proc)
    requires JournalPc(p.pc) && JournalAllows(c, p, ch)
  {
    if ch.Raise? || p.run !in c.dirs then (c, Fail(p))
    else
      var d := c.dirs[p.run];
      match p.pc
      case Barrier(plan) =>
        // the chain's directory fsync comes before the record is refused
        if !ChainAccepts(d) then (c, Fail(p))
        else (match DraftOf(d, p, plan, ch)
         case None => (Put(c, p.run, SyncDir(d)), Fail(p))
         case Some(draft) => (Put(c, p.run, SyncDir(d)), p.(pc := Link(draft))))
      case Link(draft) =>
        (match LinkDraft(d, draft)
         case None => (c, Fail(p))
         case Some(e) => (Put(c, p.run, e), p.(pc := SyncPhase(draft))))
      case SyncPhase(draft) => (Put(c, p.run, SyncDir(d)), AfterPhase(p, draft))
  }

  // ---- the execution unit -------------------------------------------------------------

  predicate UnitPc(pc: Pc) {
    pc.LaunchUnit? || pc.AwaitReady? || pc.Capture? || pc.TickBeforeGo? || pc.SendGo? || pc.AwaitOutput? || pc.WaitStopped? || pc.LoadStopped? || pc.Release? || pc.TickAfterSeal? || pc.StopUnit? || pc.Retain?
  }

  predicate UnitAllows(c: Core, p: Proc, ch: Choice) {
    ch.Raise? || match p.pc
      case LaunchUnit =>
        // the manager refuses a name that exists ("fail" mode)
        && (ch.Lost? || ch.Invocation?) && p.launch.Some? && p.launch.value.unit !in c.units
      case Capture =>
        // READY, an active unit, job zero, a main process
        && ch.Go? && p.launch.Some? && p.launch.value.unit in p.launched
        && p.launch.value.unit in c.units && c.units[p.launch.value.unit].status.UnitRunning?
      case SendGo => ch.Go? || ch.Lost?
      case AwaitOutput => ch.Produced?
      case WaitStopped =>
        // terminal state, job zero, no main process, empty cgroup; the result was read earlier
        && ch.Observed? && p.identity.Some? && p.identity.value.unit in c.units
        && c.units[p.identity.value.unit].identity == p.identity.value
        && c.units[p.identity.value.unit].status.UnitStopped?
      case Release =>
        // released after the same observation once more
        && (ch.Go? || ch.Lost?) && p.identity.Some? && p.identity.value.unit in p.references
        && p.identity.value.unit in c.units && c.units[p.identity.value.unit].status.UnitStopped?
      case Retain => (ch.Go? || ch.Lost?) && p.identity.Some?
      case _ => ch.Go?
  }

  function Physical(c: Core, pid: Pid, p: Proc, ch: Choice): (Core, Proc)
    requires UnitPc(p.pc) && UnitAllows(c, p, ch)
  {
    if ch.Raise? then (c, Fail(p))
    else match p.pc
      case LaunchUnit =>
        // the reference is recorded before the request; only a reply confirms it
        var u := p.launch.value.unit;
        var unit := Unit(p.run, pid, Identity(u, if ch.Invocation? then ch.invocation else 0), UnitRequested);
        var held := p.(references := p.references + {u});
        (c.(units := c.units[u := unit]),
         if ch.Lost? then Fail(held) else held.(launched := held.launched + {u}, pc := AwaitReady))
      case AwaitReady => (c, p.(pc := Capture))
      case Capture =>
        (c, p.(identity := Some(c.units[p.launch.value.unit].identity), pc := Barrier(PlanAdmitted)))
      case TickBeforeGo => (c, p.(pc := SendGo))
      case SendGo =>
        if p.launch.None? then (c, Fail(p))
        else (Log(c, GoSent(pid, p.run, p.launch.value.unit)), if ch.Lost? then Fail(p) else p.(pc := AwaitOutput))
      case AwaitOutput => (c, p.(output := Some(ch.output), pc := WaitStopped))
      case WaitStopped =>
        var u := c.units[p.identity.value.unit];
        (c, p.(observation := Some(Observation(p.identity.value, !u.status.success, ch.success)), pc := LoadStopped))
      case LoadStopped =>
        // journal.load is a durability barrier of its own
        if p.run !in c.dirs || !ChainAccepts(c.dirs[p.run]) then (c, Fail(p))
        else (Put(c, p.run, SyncDir(c.dirs[p.run])),
              p.(pc := if c.dirs[p.run].stopped.Present() then Release else Barrier(PlanStopped)))
      case Release =>
        var dropped := p.(references := p.references - {p.identity.value.unit}, launched := p.launched - {p.identity.value.unit});
        (Log(c, Released(pid, p.run, p.identity.value)),
         if ch.Lost? then Fail(p)
         else dropped.(pc := match p.mode case RunMode => TickAfterSeal case AbortMode => SendStop case ReconcileMode => ReloadChain))
      case TickAfterSeal =>
        if p.output.None? then (c, Fail(p))
        else (c, p.(attempted := true, pc := SendComplete(p.output.value)))
      case StopUnit =>
        (c, p.(pc := if p.mode.AbortMode? then Barrier(PlanAdmitted) else WaitStopped))
      case Retain =>
        var held := p.(references := p.references + {p.identity.value.unit});
        (c, if ch.Lost? then Fail(held) else held.(pc := StopUnit))
  }

  // ---- the server ---------------------------------------------------------------------

  predicate NetworkPc(pc: Pc) {
    pc.AwaitComplete? || pc.SendStop? || pc.AwaitStop? || pc.Status? || pc.SendComplete?
  }

  predicate NetworkAllows(c: Core, p: Proc, ch: Choice) {
    ch.Raise? || match p.pc
      case AwaitComplete => ch.Replied? && Truthful(c, ch.receipt)
      case AwaitStop => ch.StopReplied?
      case Status => ch.Replied? && Truthful(c, ch.receipt) && p.ticket.Some? && p.sealed.Some?
                     && ch.receipt.run == p.run && ch.receipt.lease == p.ticket.value.nonce
      case _ => ch.Go? || ch.Lost?
  }

  function Network(c: Core, pid: Pid, p: Proc, ch: Choice): (Core, Proc)
    requires NetworkPc(p.pc) && NetworkAllows(c, p, ch)
  {
    if ch.Raise? then (c, Fail(p))
    else match p.pc
      case SendComplete(output) =>
        if p.ticket.None? then (c, Fail(p))
        else (Log(c, CompleteSent(pid, p.run, p.ticket.value.nonce, output)),
              if ch.Lost? then Fail(p) else p.(pc := AwaitComplete))
      case AwaitComplete => (c, p.(pc := Barrier(PlanAcknowledged(Completion(ch.receipt)))))
      case SendStop => (Log(c, StopSent(pid, p.run)), if ch.Lost? then Fail(p) else p.(pc := AwaitStop))
      case AwaitStop => (c, p.(pc := Barrier(PlanAcknowledged(StopOnly(ch.run, ch.stopAck)))))
      case Status =>
        var r := ch.receipt;
        var output := p.sealed.value.output;
        if r.state == ServerCompleted then (c, p.(pc := Barrier(PlanAcknowledged(Completion(r)))))
        else if output.Some? && r.state == ServerClaimed && !r.cancelRequested && !r.stopAck
        then (c, p.(attempted := true, pc := SendComplete(output.value)))
        else (c, p.(pc := SendStop))
  }

  // ---- _abort and the loading half of reconcile ----------------------------------------

  predicate RecoveryPc(pc: Pc) {
    pc.EnterAbort? || pc.AbortLoad? || pc.LoadExisting? || pc.ReloadChain?
  }

  predicate RecoveryAllows(ch: Choice) {
    ch.Raise? || ch.Go?
  }

  function Recovery(c: Core, p: Proc, ch: Choice): (Core, Proc)
    requires RecoveryPc(p.pc) && RecoveryAllows(ch)
  {
    if ch.Raise? || p.run !in c.dirs then (c, Fail(p))
    else
      var d := c.dirs[p.run];
      var synced := Put(c, p.run, SyncDir(d));
      match p.pc
      case EnterAbort => (c, p.(pc := if p.identity.None? then Finished else AbortLoad))
      case AbortLoad =>
        if !ChainAccepts(d) || p.identity.None? then (c, Fail(p))
        else (synced, p.(pc := if d.stopped.Absent? then StopUnit
                               else if p.identity.value.unit in p.references then Release else SendStop))
      case LoadExisting =>
        if !d.claim.Present() || d.claim.record.run != p.run || !ChainAccepts(d) then (c, Fail(p))
        else if d.launch.Absent? || !OwnedBy(d.launch.record, d.claim.record) || d.admitted.Absent? then (synced, Fail(p))
        else
          var loaded := p.(ticket := Some(d.claim.record), launch := Some(d.launch.record),
                           identity := Some(d.admitted.record.identity),
                           sealed := if d.stopped.Present() then Some(d.stopped.record) else None);
          (synced, loaded.(pc := if d.acknowledged.Present() then Finished
                                 else if d.stopped.Absent? then Retain else Status))
      case ReloadChain =>
        if !ChainAccepts(d) then (c, Fail(p))
        else if d.stopped.Absent? then (synced, Fail(p))
        else (synced, p.(sealed := Some(d.stopped.record), pc := Status))
  }

  // ---- all steps ------------------------------------------------------------------------

  predicate Allows(c: Core, p: Proc, ch: Choice) {
    if SetupPc(p.pc) then SetupAllows(c, p, ch)
    else if JournalPc(p.pc) then JournalAllows(c, p, ch)
    else if UnitPc(p.pc) then UnitAllows(c, p, ch)
    else if NetworkPc(p.pc) then NetworkAllows(c, p, ch)
    else RecoveryPc(p.pc) && RecoveryAllows(ch)
  }

  /** One step of the process that holds the lock. */
  function Act(c: Core, pid: Pid, p: Proc, ch: Choice): (Core, Proc)
    requires Allows(c, p, ch)
  {
    if SetupPc(p.pc) then Setup(c, p, ch)
    else if JournalPc(p.pc) then Journal(c, p, ch)
    else if UnitPc(p.pc) then Physical(c, pid, p, ch)
    else if NetworkPc(p.pc) then Network(c, pid, p, ch)
    else Recovery(c, p, ch)
  }

  datatype Label =
    | Spawn(pid: Pid, run: Run, reconcile: bool)
    | Acquire(pid: Pid)                        // flock succeeds
    | Refused(pid: Pid)                        // another controller holds the lock
    | Move(pid: Pid, choice: Choice)
    | Kill(pid: Pid)                           // process death drops the flock, nothing else
    | MachineCrash(dirs: set<Run>, names: set<(Run, Name)>)
    | UnitStarts(unit: UnitName)
    | UnitStops(unit: UnitName, success: bool)
    | ServerCompletes(pid: Pid, run: Run, lease: Nonce, output: Output)

  function SurvivingNames(names: set<(Run, Name)>, r: Run): set<Name> {
    set n | n in {ClaimName, LaunchName, AdmittedName, StoppedName, AcknowledgedName} && (r, n) in names
  }

  function CrashDirs(dirs: map<Run, RunDir>, kept: set<Run>, names: set<(Run, Name)>): map<Run, RunDir> {
    map r | r in dirs && (dirs[r].entryDurable || r in kept) :: CrashDir(dirs[r], SurvivingNames(names, r))
  }

  predicate Enabled(w: World, l: Label) {
    match l
    case Spawn(pid, _, _) => pid !in w.spawned
    case Acquire(pid) => pid in w.procs && w.procs[pid].pc == Start && w.lock.None?
    case Refused(pid) => pid in w.procs && w.procs[pid].pc == Start && w.lock.Some?
    case Move(pid, ch) => pid in w.procs && Critical(w.procs[pid].pc) && Allows(w.core, w.procs[pid], ch)
    case Kill(pid) => pid in w.procs
    case MachineCrash(_, _) => true
    case UnitStarts(u) => u in w.core.units && w.core.units[u].status.UnitRequested?
    case UnitStops(u, _) => u in w.core.units && !w.core.units[u].status.UnitStopped?
    case ServerCompletes(pid, r, lease, output) =>
      r !in w.core.completed && CompleteSent(pid, r, lease, output) in w.core.history
  }

  function Next(w: World, l: Label): World
    requires Enabled(w, l)
  {
    match l
    case Spawn(pid, run, reconcile) =>
      w.(procs := w.procs[pid := NewProc(run, reconcile)], spawned := w.spawned[pid := reconcile])
    case Acquire(pid) =>
      var p := w.procs[pid];
      w.(lock := Some(pid), procs := w.procs[pid := p.(pc := if p.mode.ReconcileMode? then LoadExisting else Scan)])
    case Refused(pid) =>
      w.(procs := w.procs[pid := w.procs[pid].(pc := Finished)])
    case Move(pid, ch) =>
      var (c, p) := Act(w.core, pid, w.procs[pid], ch);
      World(c, if Critical(p.pc) then w.lock else None, w.procs[pid := p], w.spawned)
    case Kill(pid) =>
      w.(lock := if w.lock == Some(pid) then None else w.lock, procs := w.procs - {pid})
    case MachineCrash(kept, names) =>
      w.(lock := None, procs := map[], core := w.core.(dirs := CrashDirs(w.core.dirs, kept, names)))
    case UnitStarts(u) =>
      w.(core := w.core.(units := w.core.units[u := w.core.units[u].(status := UnitRunning)]))
    case UnitStops(u, success) =>
      w.(core := w.core.(units := w.core.units[u := w.core.units[u].(status := UnitStopped(success))]))
    case ServerCompletes(_, r, lease, output) =>
      w.(core := w.core.(completed := w.core.completed[r := Accepted(lease, output)]))
  }

  /** A finite run of the whole system from an empty state root. */
  ghost predicate Behaviour(t: seq<World>, labels: seq<Label>) {
    && |t| == |labels| + 1
    && t[0] == EMPTY_WORLD
    && forall i | 0 <= i < |labels| :: Enabled(t[i], labels[i]) && t[i + 1] == Next(t[i], labels[i])
  }
}
