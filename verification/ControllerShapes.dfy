/** What each step of a controller comes to, one program point at a time. */
module ControllerShapes {
  import opened Records
  import opened RunDirectory
  import opened ControllerState
  import opened ControllerInvariant
  import opened ControllerProof
  import opened ControllerSteps
  import opened ControllerTheorems
  import opened RunJournal

  lemma RaiseIsAllowed(c: Core, p: Proc)
    requires Critical(p.pc)
    ensures Allows(c, p, Raise)
  {
  }

  /** The order of the steps up to the launch record. */
  predicate SetupOrder(a: Pc, b: Pc) {
    match a
    case Scan => b.Scan? || b.ScanSync?
    case ScanSync => b.CheckFresh?
    case CheckFresh => b.MakeDir?
    case MakeDir => b.SyncDirs?
    case SyncDirs => b.LinkTicket?
    case LinkTicket => b.SyncTicket?
    case SyncTicket(_) => b.ClaimLease?
    case ClaimLease => b.FirstTick?
    case FirstTick => b.Fetch?
    case Fetch => b == Barrier(PlanLaunch)
    case _ => false
  }

  lemma SetupShape(c: Core, p: Proc, ch: Choice)
    requires SetupPc(p.pc) && SetupAllows(c, p, ch)
    ensures var q := Setup(c, p, ch).1;
            || q == Fail(p)
            || (!ch.Raise? && SetupOrder(p.pc, q.pc) && q == p.(pc := q.pc, scanned := q.scanned, ticket := q.ticket))
  {
  }

  lemma ScanShape(c: Core, p: Proc, ch: Choice)
    requires p.pc.Scan? && SetupAllows(c, p, ch)
    ensures var (c1, q) := Setup(c, p, ch);
            || q == Fail(p)
            || (ch.Go? && q.pc.ScanSync?)
            || (ch.Scanned? && q.pc.Scan? && ch.run in c.dirs && ch.run !in p.scanned
                && q.scanned == p.scanned + {ch.run} && c1.dirs.Keys == c.dirs.Keys)
  {
  }

  /** The steps that only move on. */
  predicate Plain(p: Proc) {
    p.pc.AwaitReady? || p.pc.TickBeforeGo? || p.pc.StopUnit?
  }

  function PlainNext(p: Proc): Pc
    requires Plain(p)
  {
    if p.pc.AwaitReady? then Pc.Capture
    else if p.pc.TickBeforeGo? then Pc.SendGo
    else if p.mode.AbortMode? then Barrier(PlanAdmitted) else Pc.WaitStopped
  }

  lemma PlainShape(c: Core, pid: Pid, p: Proc, ch: Choice)
    requires Plain(p) && Allows(c, p, ch)
    ensures Act(c, pid, p, ch) == (c, if ch.Raise? then Fail(p) else p.(pc := PlainNext(p)))
  {
  }

  lemma CaptureShape(c: Core, pid: Pid, p: Proc, ch: Choice)
    requires p.pc.Capture? && UnitAllows(c, p, ch) && !ch.Raise?
    ensures p.launch.Some? && p.launch.value.unit in p.launched && p.launch.value.unit in c.units
    ensures Physical(c, pid, p, ch) == (c, p.(identity := Some(c.units[p.launch.value.unit].identity), pc := Barrier(PlanAdmitted)))
  {
  }

  lemma OutputShape(c: Core, pid: Pid, p: Proc, ch: Choice)
    requires p.pc.AwaitOutput? && UnitAllows(c, p, ch) && !ch.Raise?
    ensures ch.Produced? && Physical(c, pid, p, ch) == (c, p.(output := Some(ch.output), pc := Pc.WaitStopped))
  {
  }

  lemma WaitShape(c: Core, pid: Pid, p: Proc, ch: Choice)
    requires p.pc.WaitStopped? && UnitAllows(c, p, ch) && !ch.Raise?
    ensures Physical(c, pid, p, ch).0 == c
    ensures Physical(c, pid, p, ch).1 == p.(observation := Physical(c, pid, p, ch).1.observation, pc := LoadStopped)
  {
  }

  lemma ActIsJournal(c: Core, pid: Pid, p: Proc, ch: Choice)
    requires JournalPc(p.pc) && Allows(c, p, ch)
    ensures JournalAllows(c, p, ch) && Act(c, pid, p, ch) == Journal(c, p, ch)
    ensures ch.Raise? ==> Act(c, pid, p, ch) == (c, Fail(p))
  {
  }

  lemma ActIsPhysical(c: Core, pid: Pid, p: Proc, ch: Choice)
    requires UnitPc(p.pc) && Allows(c, p, ch)
    ensures UnitAllows(c, p, ch) && Act(c, pid, p, ch) == Physical(c, pid, p, ch)
    ensures ch.Raise? ==> Act(c, pid, p, ch) == (c, Fail(p))
  {
  }

  lemma ActIsNetwork(c: Core, pid: Pid, p: Proc, ch: Choice)
    requires NetworkPc(p.pc) && Allows(c, p, ch)
    ensures NetworkAllows(c, p, ch) && Act(c, pid, p, ch) == Network(c, pid, p, ch)
    ensures ch.Raise? ==> Act(c, pid, p, ch) == (c, Fail(p))
  {
  }

  lemma ActIsRecovery(c: Core, pid: Pid, p: Proc, ch: Choice)
    requires RecoveryPc(p.pc) && Allows(c, p, ch)
    ensures RecoveryAllows(ch) && Act(c, pid, p, ch) == Recovery(c, p, ch)
    ensures ch.Raise? ==> Act(c, pid, p, ch) == (c, Fail(p))
  {
  }

  lemma ActIsSetup(c: Core, pid: Pid, p: Proc, ch: Choice)
    requires SetupPc(p.pc) && Allows(c, p, ch)
    ensures SetupAllows(c, p, ch) && Act(c, pid, p, ch) == Setup(c, p, ch)
  {
  }

  lemma FailUnwinds(p: Proc)
    ensures FailedFrom(p, Fail(p))
  {
  }

  /** What the failure of an effect leaves behind: inside the `try` of `run`, before anything was
      published, the cleanup is next; otherwise the call is over. Nothing held is forgotten. */
  predicate FailedFrom(p: Proc, q: Proc) {
    && q.run == p.run && (p.mode.ReconcileMode? <==> q.mode.ReconcileMode?) && q.attempted == p.attempted
    && q.references == p.references && q.launched == p.launched && q.launch == p.launch && q.identity == p.identity
    && (if p.mode.RunMode? && !p.attempted && !BeforeTry(p.pc) then q.pc.EnterAbort? && q.mode.AbortMode? else q.pc.Finished?)
  }

  lemma SyncLoadsTheSame(d: RunDir, p: Proc)
    requires d.claim.Present() && d.launch.Present() && d.admitted.Present()
    ensures Loaded(SyncDir(d), p) == Loaded(d, p)
  {
  }

  /** `reconcile` goes on exactly when what is now on disk allows it, and with just that. */
  lemma LoadResult(c: Core, p: Proc, ch: Choice)
    requires p.pc.LoadExisting? && RecoveryAllows(ch) && !ch.Raise?
    ensures var (c1, q) := Recovery(c, p, ch);
            if p.run in c1.dirs && Reconcilable(c1.dirs[p.run], p.run)
            then q == Loaded(c1.dirs[p.run], p) && !c1.dirs[p.run].acknowledged.Visible?
            else q == Fail(p)
  {
    LoadExistingShape(c, p, ch);
    if p.run in c.dirs && Reconcilable(c.dirs[p.run], p.run) { SyncLoadsTheSame(c.dirs[p.run], p); }
  }

  lemma AttemptShape(c: Core, pid: Pid, p: Proc, ch: Choice)
    requires ProcOk(c, pid, p) && p.pc.TickAfterSeal? && UnitAllows(c, p, ch) && !ch.Raise?
    ensures p.output.Some? && Physical(c, pid, p, ch) == (c, p.(attempted := true, pc := Pc.SendComplete(p.output.value)))
  {
  }

  /** The sealed output may still be published. */
  predicate Republishes(r: Receipt, sealed: Option<Stopped>) {
    sealed.Some? && sealed.value.output.Some? && r.state == ServerClaimed && !r.cancelRequested && !r.stopAck
  }

  lemma StatusBranch(c: Core, pid: Pid, p: Proc, ch: Choice)
    requires ProcOk(c, pid, p) && p.pc.Status? && NetworkAllows(c, p, ch) && !ch.Raise?
    ensures ch.Replied? && p.sealed.Some? && Network(c, pid, p, ch).0 == c
    ensures var r, output := ch.receipt, p.sealed.value.output;
            Network(c, pid, p, ch).1 ==
              if r.state == ServerCompleted then p.(pc := Barrier(PlanAcknowledged(Completion(r))))
              else if Republishes(r, p.sealed)
              then p.(attempted := true, pc := Pc.SendComplete(output.value))
              else p.(pc := Pc.SendStop)
  {
  }

  lemma SenderHasTicket(c: Core, pid: Pid, p: Proc)
    requires ProcOk(c, pid, p) && (p.pc.SendComplete? || p.pc.SendStop?)
    ensures p.ticket.Some?
  {
  }

  lemma FreshAtFetch(c: Core, pid: Pid, p: Proc)
    requires ProcOk(c, pid, p) && p.pc.Fetch?
    ensures p.ticket.Some? && Fresh(c, p)
    ensures p.run in c.dirs && c.dirs[p.run].entryDurable && c.dirs[p.run].claim == Durable(p.ticket.value)
  {
  }

  lemma EnterAbortShape(c: Core, p: Proc, ch: Choice)
    requires p.pc.EnterAbort? && p.mode.AbortMode? && RecoveryAllows(ch)
    ensures var q := Recovery(c, p, ch).1; q == p.(pc := q.pc) && if q.pc.AbortLoad? then p.identity.Some? else q.pc.Finished?
    ensures Recovery(c, p, ch).0 == c
  {
  }

  lemma NextHistory(w: World, l: Label)
    requires Enabled(w, l)
    ensures w.core.history <= Next(w, l).core.history
  {
    if l.Move? {
      MoveShape(w, l.pid, l.choice);
      ActImproves(w.core, l.pid, w.procs[l.pid], l.choice);
    }
  }

  lemma {:induction false} HistoryOnlyGrows(t: seq<World>, labels: seq<Label>, i: nat, j: nat)
    requires Behaviour(t, labels) && i <= j < |t|
    ensures t[i].core.history <= t[j].core.history
    decreases j - i
  {
    if i < j {
      NextHistory(t[i], labels[i]);
      HistoryOnlyGrows(t, labels, i + 1, j);
    }
  }

  predicate Matches(plan: Plan, draft: Draft) {
    match plan
    case PlanLaunch => draft.LaunchDraft?
    case PlanAdmitted => draft.AdmittedDraft?
    case PlanStopped => draft.StoppedDraft?
    case PlanAcknowledged(outcome) => draft.AcknowledgedDraft? && draft.acknowledged.outcome == outcome
  }

  lemma PlanMatches(d: RunDir, p: Proc, ch: Choice)
    requires p.pc.Barrier? && (p.pc.plan.PlanLaunch? ==> ch.FreshUnit?)
    ensures DraftOf(d, p, p.pc.plan, ch).Some? ==> Matches(p.pc.plan, DraftOf(d, p, p.pc.plan, ch).value)
  {
  }

  /** After the link, a directory fsync makes the record durable. */
  lemma SyncedIsDurable(c: Core, pid: Pid, p: Proc, draft: Draft)
    requires ProcOk(c, pid, p) && p.pc == SyncPhase(draft)
    ensures p.run in c.dirs && DurableAt(SyncDir(c.dirs[p.run]), draft)
  {
  }

  lemma Fewer(all: set<Run>, seen: set<Run>, r: Run)
    requires r in all && r !in seen
    ensures |all - (seen + {r})| < |all - seen|
  {
    assert all - (seen + {r}) == (all - seen) - {r};
  }

  /** The four points at which something leaves the controller. */
  predicate Sends(pc: Pc) {
    pc.SendGo? || pc.Release? || pc.SendComplete? || pc.SendStop?
  }

  lemma QuietPhysical(c: Core, pid: Pid, p: Proc, ch: Choice)
    requires UnitPc(p.pc) && UnitAllows(c, p, ch) && !Sends(p.pc)
    ensures Physical(c, pid, p, ch).0.history == c.history
  {
  }

  lemma QuietNetwork(c: Core, pid: Pid, p: Proc, ch: Choice)
    requires NetworkPc(p.pc) && NetworkAllows(c, p, ch) && !Sends(p.pc)
    ensures Network(c, pid, p, ch).0.history == c.history
  {
  }

  /** Everywhere else the history stays as it is. */
  lemma QuietAct(c: Core, pid: Pid, p: Proc, ch: Choice)
    requires Allows(c, p, ch) && !Sends(p.pc)
    ensures Act(c, pid, p, ch).0.history == c.history
  {
    if SetupPc(p.pc) { SetupImproves(c, p, ch);
    } else if JournalPc(p.pc) { JournalImproves(c, p, ch);
    } else if UnitPc(p.pc) { QuietPhysical(c, pid, p, ch);
    } else if NetworkPc(p.pc) { QuietNetwork(c, pid, p, ch);
    } else { RecoveryImproves(c, p, ch); }
  }
}
