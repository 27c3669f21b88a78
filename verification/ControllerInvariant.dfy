/** The inductive invariant of the controller system. */
module ControllerInvariant {
  import opened Records
  import opened RunDirectory
  import opened ControllerState

  // ---- the journal, the units and the history -----------------------------------------

  /** The chain on disk: whatever is linked rests on a durable predecessor, an admission names
      the launched invocation, and a stop was recorded after that invocation had stopped. */
  ghost predicate DirOk(c: Core, r: Run)
    requires r in c.dirs
  {
    var d := c.dirs[r];
    && (d.claim.Present() ==> d.entryDurable && d.claim.record.run == r)
    && (d.launch.Present() ==> d.claim.Durable? && OwnedBy(d.launch.record, d.claim.record))
    && (d.admitted.Present() ==>
          && d.launch.Durable? && ValidAdmitted(d.admitted.record, d.launch.record)
          && UnitIs(c, r, d.admitted.record.identity))
    && (d.stopped.Present() ==>
          && d.admitted.Durable? && ValidStopped(d.stopped.record, d.admitted.record)
          && StoppedAs(c, d.stopped.record.observation))
    && (d.acknowledged.Present() ==>
          && d.stopped.Durable? && ValidAcknowledged(d.acknowledged.record, d.launch.record, d.stopped.record)
          && (d.acknowledged.record.outcome.Completion? ==>
                r in c.completed && c.completed[r] == Accepted(d.claim.record.nonce, d.stopped.record.output.value)))
  }

  ghost predicate UnitIs(c: Core, r: Run, i: Identity) {
    i.unit in c.units && c.units[i.unit].identity == i && c.units[i.unit].run == r
  }

  ghost predicate StoppedAs(c: Core, o: Observation) {
    && o.identity.unit in c.units && c.units[o.identity.unit].identity == o.identity
    && c.units[o.identity.unit].status == UnitStopped(!o.failed)
  }

  /** A unit exists only for the durable launch record that names it. */
  ghost predicate UnitOk(c: Core, u: UnitName)
    requires u in c.units
  {
    var r := c.units[u].run;
    && c.units[u].identity.unit == u
    && r in c.dirs && c.dirs[r].entryDurable
    && c.dirs[r].launch.Durable? && c.dirs[r].launch.record.unit == u
  }

  predicate Unstopped(c: Core, u: UnitName) {
    u in c.units && !c.units[u].status.UnitStopped?
  }

  ghost predicate MutualExclusion(c: Core) {
    forall u, v | Unstopped(c, u) && Unstopped(c, v) :: u == v
  }

  /** What had to be durable before each effect left the controller. */
  ghost predicate EventOk(c: Core, e: Event) {
    match e
    case GoSent(pid, r, u) =>
      && r in c.dirs && c.dirs[r].entryDurable && c.dirs[r].claim.Durable?
      && c.dirs[r].launch.Durable? && c.dirs[r].launch.record.unit == u
      && c.dirs[r].admitted.Durable? && c.dirs[r].admitted.record.identity.unit == u
      && u in c.units && c.units[u].launcher == pid && c.units[u].run == r
    case CompleteSent(_, r, lease, output) =>
      && SealedStop(c, r) && c.dirs[r].stopped.record.output == Some(output)
      && c.dirs[r].claim.record.nonce == lease
    case StopSent(_, r) => SealedStop(c, r)
    case Released(_, r, identity) =>
      SealedStop(c, r) && c.dirs[r].stopped.record.observation.identity == identity
  }

  /** The stopped record of a Run is durable and describes its admitted invocation, stopped. */
  ghost predicate SealedStop(c: Core, r: Run) {
    && r in c.dirs && c.dirs[r].entryDurable && c.dirs[r].claim.Durable? && c.dirs[r].launch.Durable?
    && c.dirs[r].admitted.Durable? && c.dirs[r].stopped.Durable?
    && ValidStopped(c.dirs[r].stopped.record, c.dirs[r].admitted.record)
    && UnitIs(c, r, c.dirs[r].admitted.record.identity)
    && StoppedAs(c, c.dirs[r].stopped.record.observation)
  }

  ghost predicate OneGo(h: seq<Event>) {
    forall i, j | 0 <= i < j < |h| && h[i].GoSent? && h[j].GoSent? :: h[i].run != h[j].run
  }

  ghost predicate ServerOk(c: Core) {
    forall r | r in c.completed ::
      exists pid :: CompleteSent(pid, r, c.completed[r].lease, c.completed[r].output) in c.history
  }

  ghost predicate CoreInv(c: Core) {
    && (forall r {:trigger DirOk(c, r)} | r in c.dirs :: DirOk(c, r))
    && (forall u {:trigger UnitOk(c, u)} | u in c.units :: UnitOk(c, u))
    && MutualExclusion(c)
    && (forall e {:trigger EventOk(c, e)} | e in c.history :: EventOk(c, e))
    && OneGo(c.history)
    && ServerOk(c)
  }

  // ---- one process ----------------------------------------------------------------------

  /** Every other Run is out of the way for good. */
  ghost predicate Alone(c: Core, run: Run) {
    forall r | r in c.dirs && r != run :: Resolved(c.dirs[r])
  }

  ghost predicate NoGo(c: Core, run: Run) {
    forall e | e in c.history && e.GoSent? :: e.run != run
  }

  ghost predicate NoUnit(c: Core, run: Run) {
    forall u | u in c.units :: c.units[u].run != run
  }

  /** What the fields of a controller mean, wherever it is. */
  ghost predicate FieldsOk(c: Core, pid: Pid, p: Proc) {
    && (p.ticket.Some? ==>
          p.run in c.dirs && DirOf(c, p.run).entryDurable && DirOf(c, p.run).claim == Durable(p.ticket.value)
          && p.ticket.value.run == p.run)
    && (p.launch.Some? ==> p.ticket.Some? && DirOf(c, p.run).launch == Durable(p.launch.value))
    && (p.identity.Some? ==>
          && p.launch.Some? && p.identity.value.unit == p.launch.value.unit && UnitIs(c, p.run, p.identity.value))
    && (forall u | u in p.launched ::
          p.launch.Some? && u == p.launch.value.unit && u in c.units && c.units[u].launcher == pid && c.units[u].run == p.run)
    && (p.observation.Some? ==>
          p.identity.Some? && p.observation.value.identity == p.identity.value && StoppedAs(c, p.observation.value))
    && (p.sealed.Some? ==> p.ticket.Some? && SealedStop(c, p.run) && DirOf(c, p.run).stopped.record == p.sealed.value)
    && (!p.mode.RunMode? ==> p.output.None?)
  }

  /** This process's own launch was confirmed. */
  predicate Holds(p: Proc) {
    p.launch.Some? && p.launch.value.unit in p.launched
  }

  /** A fresh Run before any unit: nothing but the ticket is on disk, nothing was ever sent. */
  ghost predicate Fresh(c: Core, p: Proc) {
    && p.mode.RunMode? && Alone(c, p.run) && NoGo(c, p.run) && NoUnit(c, p.run)
    && p.run in c.dirs && NoPhase(DirOf(c, p.run))
    && p.launch.None? && p.identity.None?
  }

  ghost predicate AdmittedDurably(c: Core, p: Proc) {
    && p.identity.Some? && DirOf(c, p.run).admitted.Durable?
    && DirOf(c, p.run).admitted.record.identity == p.identity.value
  }

  ghost predicate SealedHere(c: Core, p: Proc) {
    p.ticket.Some? && SealedStop(c, p.run)
  }

  /** Until its own seal, `run` is the only writer of its stopped record. */
  ghost predicate Unsealed(c: Core, p: Proc) {
    p.mode.RunMode? ==> p.output.Some? && DirOf(c, p.run).stopped.Absent?
  }

  ghost predicate DraftOk(c: Core, p: Proc, draft: Draft)
  {
    var d := DirOf(c, p.run);
    match draft
    case LaunchDraft(l) =>
      && p.mode.RunMode? && p.ticket.Some? && OwnedBy(l, p.ticket.value)
      && Alone(c, p.run) && NoGo(c, p.run) && NoUnit(c, p.run) && p.launch.None? && p.identity.None?
      && l.unit !in c.units
      && d.admitted.Absent? && d.stopped.Absent? && d.acknowledged.Absent?
    case AdmittedDraft(a) =>
      && p.identity.Some? && p.launch.Some? && a.identity == p.identity.value && ValidAdmitted(a, p.launch.value)
      && (p.mode.RunMode? ==> NoGo(c, p.run) && Holds(p) && d.stopped.Absent?)
    case StoppedDraft(s) =>
      && AdmittedDurably(c, p) && p.observation.Some?
      && ValidStopped(s, d.admitted.record) && s.observation == p.observation.value
      && (p.mode.RunMode? ==> p.output.Some? && s.output == p.output)
    case AcknowledgedDraft(a) =>
      && SealedHere(c, p) && ValidAcknowledged(a, d.launch.record, d.stopped.record)
      && (a.outcome.Completion? ==>
            p.run in c.completed && c.completed[p.run].lease == d.claim.record.nonce)
  }

  ghost predicate PlanOk(c: Core, p: Proc, plan: Plan) {
    match plan
    case PlanLaunch => p.ticket.Some? && Fresh(c, p)
    case PlanAdmitted =>
      && p.identity.Some?
      && (p.mode.RunMode? ==> NoGo(c, p.run) && Holds(p) && DirOf(c, p.run).stopped.Absent?)
    case PlanStopped => AdmittedDurably(c, p) && p.observation.Some? && Unsealed(c, p)
    case PlanAcknowledged(outcome) =>
      && SealedHere(c, p)
      && (outcome.Completion? ==> Truthful(c, outcome.receipt))
  }

  /** What holds at each program point. The comparison keeps the cases together: `At` is one fact to
      prove or to assume, not one for each part of each case. */
  ghost predicate At(c: Core, p: Proc) {
    Situation(c, p) == true
  }

  ghost predicate Situation(c: Core, p: Proc) {
    match p.pc
    case Start => true
    case Finished => true
    case Scan => p.mode.RunMode? && NothingYet(p) && forall r | r in p.scanned :: r in c.dirs && !c.dirs[r].acknowledged.Visible?
    case ScanSync => p.mode.RunMode? && NothingYet(p) && forall r | r in c.dirs :: !c.dirs[r].acknowledged.Visible?
    case CheckFresh => p.mode.RunMode? && NothingYet(p) && forall r | r in c.dirs :: Resolved(c.dirs[r])
    case MakeDir => p.mode.RunMode? && NothingYet(p) && p.run !in c.dirs && forall r | r in c.dirs :: Resolved(c.dirs[r])
    case SyncDirs => Fresh(c, p) && NothingYet(p) && DirOf(c, p.run).claim.Absent?
    case LinkTicket => Fresh(c, p) && NothingYet(p) && DirOf(c, p.run).entryDurable && DirOf(c, p.run).claim.Absent?
    case SyncTicket(t) =>
      && Fresh(c, p) && NothingYet(p) && t.run == p.run && DirOf(c, p.run).entryDurable
      && DirOf(c, p.run).claim.Present() && DirOf(c, p.run).claim.record == t
    case ClaimLease => p.ticket.Some? && Fresh(c, p)
    case FirstTick => p.ticket.Some? && Fresh(c, p)
    case Fetch => p.ticket.Some? && Fresh(c, p)
    case Barrier(plan) => PlanOk(c, p, plan)
    case Link(draft) =>
      && DraftOk(c, p, draft)
      && (draft.LaunchDraft? ==> UnitUnused(c, draft.launch.unit) && DirOf(c, p.run).launch.Absent?)
      && (draft.StoppedDraft? && p.mode.RunMode? ==> DirOf(c, p.run).stopped.Absent?)
    case SyncPhase(draft) =>
      && DraftOk(c, p, draft)
      && (match draft
          case LaunchDraft(l) => DirOf(c, p.run).launch.Present() && DirOf(c, p.run).launch.record == l
          case AdmittedDraft(a) => DirOf(c, p.run).admitted.Present() && DirOf(c, p.run).admitted.record == a
          case StoppedDraft(s) => DirOf(c, p.run).stopped.Present() && DirOf(c, p.run).stopped.record == s
          case AcknowledgedDraft(a) => DirOf(c, p.run).acknowledged.Present() && DirOf(c, p.run).acknowledged.record == a)
    case LaunchUnit =>
      && p.mode.RunMode? && p.launch.Some? && p.identity.None? && Alone(c, p.run) && NoGo(c, p.run) && NoUnit(c, p.run)
      && DirOf(c, p.run).admitted.Absent? && DirOf(c, p.run).stopped.Absent?
    case AwaitReady => Launched(c, p)
    case Capture => Launched(c, p)
    case TickBeforeGo => ReadyForGo(c, p)
    case SendGo => ReadyForGo(c, p)
    case AwaitOutput => p.mode.RunMode? && AdmittedDurably(c, p) && DirOf(c, p.run).stopped.Absent?
    case WaitStopped => AdmittedDurably(c, p) && Unsealed(c, p)
    case LoadStopped => AdmittedDurably(c, p) && p.observation.Some? && Unsealed(c, p)
    case Release =>
      && SealedHere(c, p) && AdmittedDurably(c, p)
      && (p.mode.RunMode? ==> p.output.Some? && DirOf(c, p.run).stopped.record.output == p.output)
    case TickAfterSeal =>
      && p.mode.RunMode? && SealedHere(c, p) && p.output.Some? && DirOf(c, p.run).stopped.record.output == p.output
    case SendComplete(output) =>
      && p.attempted && SealedHere(c, p) && DirOf(c, p.run).stopped.record.output == Some(output)
    case AwaitComplete => p.attempted && SealedHere(c, p)
    case EnterAbort => p.mode.AbortMode?
    case AbortLoad => p.mode.AbortMode? && p.identity.Some?
    case StopUnit => p.identity.Some? && !p.mode.RunMode? && (p.mode.ReconcileMode? ==> AdmittedDurably(c, p))
    case SendStop => SealedHere(c, p)
    case AwaitStop => SealedHere(c, p)
    case LoadExisting => p.mode.ReconcileMode?
    case Retain => p.mode.ReconcileMode? && AdmittedDurably(c, p)
    case ReloadChain => p.mode.ReconcileMode? && SealedHere(c, p)
    case Status => p.mode.ReconcileMode? && p.sealed.Some?
  }

  ghost predicate NothingYet(p: Proc) {
    p.ticket.None? && p.launch.None? && p.identity.None? && p.launched == {} && p.observation.None? && p.sealed.None?
  }

  ghost predicate Launched(c: Core, p: Proc) {
    && p.mode.RunMode? && p.launch.Some? && p.identity.None? && NoGo(c, p.run)
    && Holds(p)
    && DirOf(c, p.run).admitted.Absent? && DirOf(c, p.run).stopped.Absent?
  }

  ghost predicate ReadyForGo(c: Core, p: Proc) {
    && p.mode.RunMode? && NoGo(c, p.run) && AdmittedDurably(c, p) && Holds(p)
    && DirOf(c, p.run).stopped.Absent?
  }

  ghost predicate ProcOk(c: Core, pid: Pid, p: Proc) {
    Critical(p.pc) ==> FieldsOk(c, pid, p) && At(c, p)
  }

  /** Only the lock holder is inside; nothing is assumed of the others. */
  ghost predicate Inv(w: World) {
    && CoreInv(w.core)
    && w.procs.Keys <= w.spawned.Keys
    && (w.lock.Some? ==> w.lock.value in w.procs && Critical(w.procs[w.lock.value].pc))
    && (forall pid | pid in w.procs && Critical(w.procs[pid].pc) :: w.lock == Some(pid))
    && (forall pid | pid in w.procs :: ProcOk(w.core, pid, w.procs[pid]))
    && (forall pid | pid in w.procs && w.procs[pid].pc == Start ::
          exists run, reconcile :: w.procs[pid] == NewProc(run, reconcile))
  }
}
